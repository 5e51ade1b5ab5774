/** The controller as a state machine driven by the screens: which actions each
    (flow, step) screen offers, the transition each action takes, and the
    properties of every state reachable from the initial one. The machine comes
    in two variants: the handlers as written, and with the corrections of
    module Corrected. */
module Machine {
  import opened Types
  import opened Seqs
  import opened Controller
  import Corrected

  datatype Variant = AsWritten | Fixed

  /** One user action; an action that consults the gateway carries the call's outcome. */
  datatype Event =
    | Home                                   // the header logo, "Start Over", "Back to Home"
    | GoBack
    | TileAfterTen | TileAfterTwelve | TileAssessment | TileJobMarket | TileExpert
    | PickSubject10(subject: SubjectStream10, careers: Outcome<seq<CareerOption>>)
    | PickCareer10(career: string, subject10: Option<SubjectStream10>, pathway10: Outcome<string>)
    | PickSubject12(subject12: SubjectStream12, courses: Outcome<seq<string>>)
    | PickCourse(course: string)
    | PickFindColleges
    | PickFindCareers(careers12: Outcome<seq<CareerOption>>)
    | EditProfile(profile: StudentProfile)
    | SubmitProfile(colleges: Outcome<seq<College>>)
    | PickCollege(college: string, admission: Outcome<string>)
    | PickCareer12(career12: string, pathway12: Outcome<string>)
    | PickInterests
    | PickOpenQuiz(hotsQuestions: Outcome<seq<AssessmentQuestion>>)
    | ToggleTag(tag: string)
    | SubmitInterests(questions: Outcome<seq<AssessmentQuestion>>)
    | Answer(answer: string, analysis: Outcome<AssessmentResult>)
    | EditQuery(query: string)
    | SubmitQuery(market: Outcome<JobMarketAnalysisResult>)
    | SubmitExpert

  function CareerNames(cs: seq<CareerOption>): seq<string> {
    seq(|cs|, i requires 0 <= i < |cs| => cs[i].careerName)
  }

  function CollegeNames(cs: seq<College>): seq<string> {
    seq(|cs|, i requires 0 <= i < |cs| => cs[i].collegeName)
  }

  /** The stream the results screen hands on with a suggested career: the first suggested one. */
  function FirstStream(res: AssessmentResult): Option<SubjectStream10> {
    if |res.suggestedStreams| > 0 then Some(res.suggestedStreams[0]) else None
  }

  predicate At(s: State, f: Flow, step: real) {
    s.flow == f && s.step == step
  }

  /** The question screen renders only with a question at the current index. */
  predicate QuestionShown(s: State) {
    0 < |s.assessmentQuestions| && s.currentQuestionIndex < |s.assessmentQuestions|
  }

  /** The quiz results screen renders only once a result is present. */
  predicate AtResults(s: State) {
    At(s, SkillsAssessment, 3.0) && s.assessmentResult.Some?
  }

  /** The screens that show a back button: never Landing, never a pathway or the
      results screen, and the expert screen only before the request is sent. */
  predicate BackShown(s: State): (r: bool)
    ensures r ==> s.flow != Landing
    ensures At(s, AfterTen, 3.0) || At(s, AfterTwelve, 6.0) || At(s, AfterTwelve, 8.0) || At(s, SkillsAssessment, 3.0) ==> !r
    ensures s.flow == TalkToExpert ==> (r <==> !s.expertFormSubmitted)
  {
    || (s.flow == TalkToExpert && !s.expertFormSubmitted)
    || s.flow == JobMarketAnalysis
    || At(s, SkillsAssessment, 1.0) || At(s, SkillsAssessment, 1.5)
    || (At(s, SkillsAssessment, 2.0) && QuestionShown(s))
    || At(s, AfterTen, 1.0) || At(s, AfterTen, 2.0)
    || (s.flow == AfterTwelve && s.step in {1.0, 2.0, 3.0, 4.0, 5.0, 7.0})
  }

  /** The actions the screen for s offers. The header's home link is everywhere;
      Landing offers nothing else but its five tiles; a pathway screen offers only
      "Start Over"; an answer needs a question on screen. */
  predicate Enabled(s: State, e: Event): (r: bool)
    ensures e.Home? ==> r
    ensures s.flow == Landing ==>
      (r <==> e.Home? || e.TileAfterTen? || e.TileAfterTwelve? || e.TileAssessment? || e.TileJobMarket? || e.TileExpert?)
    ensures At(s, AfterTen, 3.0) || At(s, AfterTwelve, 6.0) || At(s, AfterTwelve, 8.0) ==> (r <==> e.Home?)
    ensures r && e.Answer? ==> QuestionShown(s)
  {
    match e
    case Home => true
    case GoBack => BackShown(s)
    case TileAfterTen => s.flow == Landing
    case TileAfterTwelve => s.flow == Landing
    case TileAssessment => s.flow == Landing
    case TileJobMarket => s.flow == Landing
    case TileExpert => s.flow == Landing
    case PickSubject10(subject, _) =>
      At(s, AfterTen, 1.0) || (AtResults(s) && subject in s.assessmentResult.value.suggestedStreams)
    case PickCareer10(career, subject, _) =>
      || (At(s, AfterTen, 2.0) && career in CareerNames(s.careerOptions) && subject == s.selectedSubject10)
      || (AtResults(s) && career in CareerNames(s.assessmentResult.value.suggestedCareers)
          && subject == FirstStream(s.assessmentResult.value))
    case PickSubject12(_, _) => At(s, AfterTwelve, 1.0)
    case PickCourse(course) => At(s, AfterTwelve, 2.0) && course in s.courseOptions
    case PickFindColleges => At(s, AfterTwelve, 3.0)
    case PickFindCareers(_) => At(s, AfterTwelve, 3.0)
    case EditProfile(_) => At(s, AfterTwelve, 4.0)
    case SubmitProfile(_) => At(s, AfterTwelve, 4.0)
    case PickCollege(college, _) => At(s, AfterTwelve, 5.0) && college in CollegeNames(s.colleges)
    case PickCareer12(career, _) => At(s, AfterTwelve, 7.0) && career in CareerNames(s.careerOptions)
    case PickInterests => At(s, SkillsAssessment, 1.0)
    case PickOpenQuiz(_) => At(s, SkillsAssessment, 1.0)
    case ToggleTag(tag) => At(s, SkillsAssessment, 1.5) && tag in CommonInterests
    case SubmitInterests(_) => At(s, SkillsAssessment, 1.5) && |s.assessmentInterests| > 0
    case Answer(answer, _) =>
      At(s, SkillsAssessment, 2.0) && QuestionShown(s)
      && answer in s.assessmentQuestions[s.currentQuestionIndex].options
    case EditQuery(_) => s.flow == JobMarketAnalysis
    case SubmitQuery(_) => s.flow == JobMarketAnalysis
    case SubmitExpert => s.flow == TalkToExpert && !s.expertFormSubmitted
  }

  /** The transition an action takes. No action raises the loading flag, home always
      lands on Landing's step 1, and only home, back, the tiles and the stream and
      career picks of the guidance flows can change the flow. */
  function Apply(v: Variant, s: State, e: Event): (r: State)
    ensures r.isLoading ==> s.isLoading
    ensures e.Home? ==> At(r, Landing, 1.0)
    ensures r.flow != s.flow ==>
      || e.Home? || e.GoBack? || e.TileAfterTen? || e.TileAfterTwelve? || e.TileAssessment?
      || e.TileJobMarket? || e.TileExpert? || e.PickSubject10? || e.PickCareer10? || e.PickSubject12?
  {
    match e
    case Home => Reset(s)
    case GoBack => if v == Fixed then Corrected.Back(s) else Back(s)
    case TileAfterTen => ChooseTile(s, AfterTen)
    case TileAfterTwelve => ChooseTile(s, AfterTwelve)
    case TileAssessment => StartAssessment(s)
    case TileJobMarket => ChooseTile(s, JobMarketAnalysis)
    case TileExpert => ChooseTile(s, TalkToExpert)
    case PickSubject10(subject, o) => SelectSubject10(s, subject, o).state
    case PickCareer10(career, subject, o) => SelectCareer10(s, career, subject, o).state
    case PickSubject12(subject, o) => SelectSubject12(s, subject, o).state
    case PickCourse(course) => SelectCourse12(s, course)
    case PickFindColleges => FindColleges(s)
    case PickFindCareers(o) => FindCareers(s, o).state
    case EditProfile(p) => s.(studentProfile := p)
    case SubmitProfile(o) => ProfileSubmit(s, o).state
    case PickCollege(college, o) => SelectCollege(s, college, o).state
    case PickCareer12(career, o) => SelectCareer12(s, career, o).state
    case PickInterests => ChooseInterests(s)
    case PickOpenQuiz(o) => (if v == Fixed then Corrected.StartHots(s, o) else StartHots(s, o)).state
    case ToggleTag(tag) => InterestToggle(s, tag)
    case SubmitInterests(o) => (if v == Fixed then Corrected.InterestsSubmit(s, o) else InterestsSubmit(s, o)).state
    case Answer(answer, o) => AnswerSubmit(s, answer, o).state
    case EditQuery(q) => s.(jobMarketQuery := q)
    case SubmitQuery(o) => JobMarketSubmit(s, o).state
    case SubmitExpert => ExpertFormSubmit(s)
  }

  /** The state after a sequence of actions. */
  function Run(v: Variant, s: State, es: seq<Event>): State
    decreases |es|
  {
    if |es| == 0 then s else Run(v, Apply(v, s, es[0]), es[1..])
  }

  /** Every action of the sequence is offered by the screen it is taken on. */
  predicate ValidTrace(v: Variant, s: State, es: seq<Event>)
    decreases |es|
  {
    |es| == 0 || (Enabled(s, es[0]) && ValidTrace(v, Apply(v, s, es[0]), es[1..]))
  }

  /** The (flow, step) pairs the renderer's switch has a case for, with Landing and
      the single-screen flows at step 1. Every flow has its step-1 screen, only the
      assessment has the half step, and only the after-12th flow goes past step 3. */
  predicate KnownScreen(f: Flow, step: real): (r: bool)
    ensures step == 1.0 ==> r
    ensures r ==> 1.0 <= step <= 8.0
    ensures r && step == 1.5 ==> f == SkillsAssessment
    ensures r && step > 3.0 ==> f == AfterTwelve
  {
    match f
    case Landing => step == 1.0
    case AfterTen => step == 1.0 || step == 2.0 || step == 3.0
    case AfterTwelve => step in {1.0, 2.0, 3.0, 4.0, 5.0, 6.0, 7.0, 8.0}
    case SkillsAssessment => step == 1.0 || step == 1.5 || step == 2.0 || step == 3.0
    case TalkToExpert => step == 1.0
    case JobMarketAnalysis => step == 1.0
  }

  /** The two variants differ only in back from the after-12th career list and in
      the question index and answers a quiz start leaves. */
  lemma VariantsAgree(s: State, e: Event)
    ensures !(e.GoBack? || e.PickOpenQuiz? || e.SubmitInterests?) ==> Apply(AsWritten, s, e) == Apply(Fixed, s, e)
    ensures e.GoBack? && !At(s, AfterTwelve, 7.0) ==> Apply(AsWritten, s, e) == Apply(Fixed, s, e)
    ensures e.PickOpenQuiz? || e.SubmitInterests? ==>
      var w := Apply(AsWritten, s, e);
      Apply(Fixed, s, e).(currentQuestionIndex := w.currentQuestionIndex, assessmentAnswers := w.assessmentAnswers) == w
  {
  }

  /** What holds of every reachable state, in both variants. */
  predicate Inv(s: State) {
    KnownScreen(s.flow, s.step) && !s.isLoading && NoDup(s.assessmentInterests)
  }

  /** What holds in addition once the corrections are in: the question index is
      within the question list whenever there is one, and the admission pathway
      screen only ever shows a college that was chosen. */
  predicate FixedInv(s: State) {
    && Inv(s)
    && (s.currentQuestionIndex == 0 || s.currentQuestionIndex < |s.assessmentQuestions|)
    && (At(s, AfterTwelve, 6.0) ==> s.selectedCollege.Some?)
  }

  lemma InitialInv()
    ensures FixedInv(Initial())
  {
  }

  // The preservation proofs, one group of actions at a time.

  lemma NavigationInv(v: Variant, s: State, e: Event)
    requires Inv(s) && Enabled(s, e) && (e.Home? || e.GoBack?)
    ensures Inv(Apply(v, s, e))
    ensures v == Fixed && FixedInv(s) ==> FixedInv(Apply(v, s, e))
  {
  }

  lemma TileInv(v: Variant, s: State, e: Event)
    requires Inv(s) && Enabled(s, e)
    requires e.TileAfterTen? || e.TileAfterTwelve? || e.TileAssessment? || e.TileJobMarket? || e.TileExpert?
    ensures Inv(Apply(v, s, e))
    ensures v == Fixed && FixedInv(s) ==> FixedInv(Apply(v, s, e))
  {
  }

  lemma InterestPickerInv(v: Variant, s: State, e: Event)
    requires Inv(s) && Enabled(s, e) && (e.PickInterests? || e.ToggleTag?)
    ensures Inv(Apply(v, s, e))
    ensures v == Fixed && FixedInv(s) ==> FixedInv(Apply(v, s, e))
  {
  }

  lemma SelectionInv(v: Variant, s: State, e: Event)
    requires Inv(s) && Enabled(s, e) && (e.PickCourse? || e.PickFindColleges? || e.EditProfile?)
    ensures Inv(Apply(v, s, e))
    ensures v == Fixed && FixedInv(s) ==> FixedInv(Apply(v, s, e))
  {
  }

  lemma JobAndExpertInv(v: Variant, s: State, e: Event)
    requires Inv(s) && Enabled(s, e) && (e.EditQuery? || e.SubmitExpert? || e.SubmitQuery?)
    ensures Inv(Apply(v, s, e))
    ensures v == Fixed && FixedInv(s) ==> FixedInv(Apply(v, s, e))
  {
  }

  lemma AfterTenCallInv(v: Variant, s: State, e: Event)
    requires Inv(s) && Enabled(s, e) && (e.PickSubject10? || e.PickCareer10?)
    ensures Inv(Apply(v, s, e))
    ensures v == Fixed && FixedInv(s) ==> FixedInv(Apply(v, s, e))
  {
  }

  lemma AfterTwelveCallInv(v: Variant, s: State, e: Event)
    requires Inv(s) && Enabled(s, e) && (e.PickSubject12? || e.PickFindCareers?)
    ensures Inv(Apply(v, s, e))
    ensures v == Fixed && FixedInv(s) ==> FixedInv(Apply(v, s, e))
  {
  }

  lemma ProfileCallInv(v: Variant, s: State, e: Event)
    requires Inv(s) && Enabled(s, e) && (e.SubmitProfile?)
    ensures Inv(Apply(v, s, e))
    ensures v == Fixed && FixedInv(s) ==> FixedInv(Apply(v, s, e))
  {
  }

  lemma PathwayCallInv(v: Variant, s: State, e: Event)
    requires Inv(s) && Enabled(s, e) && (e.PickCollege? || e.PickCareer12?)
    ensures Inv(Apply(v, s, e))
    ensures v == Fixed && FixedInv(s) ==> FixedInv(Apply(v, s, e))
  {
  }

  lemma OpenQuizInv(v: Variant, s: State, e: Event)
    requires Inv(s) && Enabled(s, e) && (e.PickOpenQuiz?)
    ensures Inv(Apply(v, s, e))
    ensures v == Fixed && FixedInv(s) ==> FixedInv(Apply(v, s, e))
  {
  }

  lemma InterestsSubmitInv(v: Variant, s: State, e: Event)
    requires Inv(s) && Enabled(s, e) && (e.SubmitInterests?)
    ensures Inv(Apply(v, s, e))
    ensures v == Fixed && FixedInv(s) ==> FixedInv(Apply(v, s, e))
  {
  }

  lemma AnswerInv(v: Variant, s: State, e: Event)
    requires Inv(s) && Enabled(s, e) && (e.Answer?)
    ensures Inv(Apply(v, s, e))
    ensures v == Fixed && FixedInv(s) ==> FixedInv(Apply(v, s, e))
  {
  }

  /** Every action a screen offers keeps the invariant; with the corrections, the
      stronger one too. */
  lemma StepInv(v: Variant, s: State, e: Event)
    requires Inv(s) && Enabled(s, e)
    ensures Inv(Apply(v, s, e))
    ensures v == Fixed && FixedInv(s) ==> FixedInv(Apply(v, s, e))
  {
    if e.Home? || e.GoBack? {
      NavigationInv(v, s, e);
    } else if e.TileAfterTen? || e.TileAfterTwelve? || e.TileAssessment? || e.TileJobMarket? || e.TileExpert? {
      TileInv(v, s, e);
    } else if e.PickInterests? || e.ToggleTag? {
      InterestPickerInv(v, s, e);
    } else if e.PickCourse? || e.PickFindColleges? || e.EditProfile? {
      SelectionInv(v, s, e);
    } else if e.EditQuery? || e.SubmitExpert? || e.SubmitQuery? {
      JobAndExpertInv(v, s, e);
    } else if e.PickSubject10? || e.PickCareer10? {
      AfterTenCallInv(v, s, e);
    } else if e.PickSubject12? || e.PickFindCareers? {
      AfterTwelveCallInv(v, s, e);
    } else if e.SubmitProfile? {
      ProfileCallInv(v, s, e);
    } else if e.PickCollege? || e.PickCareer12? {
      PathwayCallInv(v, s, e);
    } else if e.PickOpenQuiz? {
      OpenQuizInv(v, s, e);
    } else if e.SubmitInterests? {
      InterestsSubmitInv(v, s, e);
    } else if e.Answer? {
      AnswerInv(v, s, e);
    }
  }

  /** Every state reachable through the screens is a recognised screen, not loading,
      with a duplicate-free interest list. */
  lemma {:induction false} ReachableInv(v: Variant, s: State, es: seq<Event>)
    requires Inv(s) && ValidTrace(v, s, es)
    ensures Inv(Run(v, s, es))
    decreases |es|
  {
    if |es| > 0 {
      StepInv(v, s, es[0]);
      ReachableInv(v, Apply(v, s, es[0]), es[1..]);
    }
  }

  /** Over all reachable states: the step is at least 1, Landing is always at
      step 1, and step 1.5 only occurs in the skills assessment. */
  lemma ReachableStepFacts(v: Variant, es: seq<Event>)
    requires ValidTrace(v, Initial(), es)
    ensures var r := Run(v, Initial(), es);
      && r.step >= 1.0
      && (r.flow == Landing ==> r.step == 1.0)
      && (r.step == 1.5 ==> r.flow == SkillsAssessment)
      && !r.isLoading
  {
    ReachableInv(v, Initial(), es);
  }

  lemma {:induction false} FixedReachableInv(s: State, es: seq<Event>)
    requires FixedInv(s) && ValidTrace(Fixed, s, es)
    ensures FixedInv(Run(Fixed, s, es))
    decreases |es|
  {
    if |es| > 0 {
      StepInv(Fixed, s, es[0]);
      FixedReachableInv(Apply(Fixed, s, es[0]), es[1..]);
    }
  }

  /** With the corrections, the current question index stays inside a non-empty
      question list over every reachable state. */
  lemma QuizIndexInRange(es: seq<Event>)
    requires ValidTrace(Fixed, Initial(), es)
    ensures var r := Run(Fixed, Initial(), es);
      |r.assessmentQuestions| > 0 ==> r.currentQuestionIndex < |r.assessmentQuestions|
  {
    InitialInv();
    FixedReachableInv(Initial(), es);
  }

  /** A Landing tile enters its flow at step 1. */
  lemma TileEntersFirstStep(v: Variant, s: State, e: Event)
    requires Inv(s) && Enabled(s, e)
    requires e.TileAfterTen? || e.TileAfterTwelve? || e.TileAssessment? || e.TileJobMarket? || e.TileExpert?
    ensures Apply(v, s, e).step == 1.0 && Apply(v, s, e).flow != Landing
  {
  }

  // --- Back undoes forward ---

  /** The forward moves between numbered screens of the after-10th and after-12th
      flows: the two branches of the after-12th flow leave step 3 for 4 (colleges)
      and for 7 (careers). */
  predicate ForwardStep(f: Flow, from: real, to: real) {
    || (f == AfterTen && ((from == 1.0 && to == 2.0) || (from == 2.0 && to == 3.0)))
    || (f == AfterTwelve &&
         ((from == 1.0 && to == 2.0) || (from == 2.0 && to == 3.0) || (from == 3.0 && to == 4.0)
          || (from == 4.0 && to == 5.0) || (from == 5.0 && to == 6.0) || (from == 3.0 && to == 7.0)
          || (from == 7.0 && to == 8.0)))
  }

  /** Every action that moves forward inside the after-10th or after-12th flow is
      one of the forward moves of the table. */
  lemma ForwardStepsCovered(v: Variant, s: State, e: Event)
    requires Inv(s) && Enabled(s, e) && (s.flow == AfterTen || s.flow == AfterTwelve)
    requires Apply(v, s, e).flow == s.flow && Apply(v, s, e).step > s.step
    ensures ForwardStep(s.flow, s.step, Apply(v, s, e).step)
  {
  }

  /** With the corrections, back from the screen a forward move reached returns to
      the screen it left. */
  lemma BackUndoesForward(s: State, from: real)
    requires ForwardStep(s.flow, from, s.step)
    ensures Corrected.Back(s).flow == s.flow && Corrected.Back(s).step == from
  {
  }

  /** As written, back from the career list of the after-12th flow does not return
      to the course screen it was reached from, but to the admission pathway screen. */
  lemma BackFromCareerListMissesOrigin(s: State)
    requires At(s, AfterTwelve, 7.0)
    ensures ForwardStep(AfterTwelve, 3.0, 7.0)
    ensures Back(s).step == 6.0 && Back(s).step != 3.0
  {
  }

  // --- Counterexample traces for the code as written ---

  const Q1: AssessmentQuestion := AssessmentQuestion(1, "q1", ["a"])
  const Q2: AssessmentQuestion := AssessmentQuestion(2, "q2", ["b"])
  const QuizResult: AssessmentResult := AssessmentResult("summary", [Maths], [])

  /** Finish an open-ended quiz of two questions, follow the suggested stream, back
      out twice to Landing, and start a one-question open-ended quiz. */
  function StaleQuizTrace(): seq<Event> {
    FinishQuiz() + LeaveResults() + RestartQuiz()
  }

  function FinishQuiz(): seq<Event> {
    [TileAssessment, PickOpenQuiz(Success([Q1, Q2])), Answer("a", Failure), Answer("b", Success(QuizResult))]
  }

  function LeaveResults(): seq<Event> {
    [PickSubject10(Maths, Success([])), GoBack, GoBack]
  }

  function RestartQuiz(): seq<Event> {
    [TileAssessment, PickOpenQuiz(Success([Q1]))]
  }

  lemma ExtendTrace(v: Variant, s: State, e: Event, es: seq<Event>)
    requires Enabled(s, e) && ValidTrace(v, Apply(v, s, e), es)
    ensures ValidTrace(v, s, [e] + es)
    ensures Run(v, s, [e] + es) == Run(v, Apply(v, s, e), es)
  {
    assert ([e] + es)[1..] == es;
  }

  lemma OneStep(v: Variant, s: State, e: Event)
    requires Enabled(s, e)
    ensures ValidTrace(v, s, [e]) && Run(v, s, [e]) == Apply(v, s, e)
  {
    ExtendTrace(v, s, e, []);
    assert [e] + [] == [e];
  }

  /** Step 2 of the restarted one-question quiz, still at index 1. */
  predicate StaleQuizScreen(r: State) {
    At(r, SkillsAssessment, 2.0) && r.assessmentQuestions == [Q1] && r.currentQuestionIndex == 1
  }

  /** The one-question quiz start from Landing with the old index 1. */
  lemma RestartQuizStage(s: State)
    requires s.flow == Landing && s.currentQuestionIndex == 1
    ensures ValidTrace(AsWritten, s, RestartQuiz())
    ensures StaleQuizScreen(Run(AsWritten, s, RestartQuiz()))
  {
    var v := AsWritten;
    var s1 := StartAssessment(s);
    OneStep(v, s1, PickOpenQuiz(Success([Q1])));
    ExtendTrace(v, s, TileAssessment, [PickOpenQuiz(Success([Q1]))]);
    assert RestartQuiz() == [TileAssessment] + [PickOpenQuiz(Success([Q1]))];
  }

  /** Back from the after-10th subject screen to Landing, then the restart. */
  lemma SecondBackStage(s: State)
    requires At(s, AfterTen, 1.0) && s.currentQuestionIndex == 1
    ensures ValidTrace(AsWritten, s, [GoBack] + RestartQuiz())
    ensures StaleQuizScreen(Run(AsWritten, s, [GoBack] + RestartQuiz()))
  {
    var t := Back(s);
    assert t.flow == Landing && t.currentQuestionIndex == 1;
    RestartQuizStage(t);
    ExtendTrace(AsWritten, s, GoBack, RestartQuiz());
  }

  /** Back from the after-10th career list to its subject screen, and on. */
  lemma FirstBackStage(s: State)
    requires At(s, AfterTen, 2.0) && s.currentQuestionIndex == 1
    ensures ValidTrace(AsWritten, s, [GoBack] + ([GoBack] + RestartQuiz()))
    ensures StaleQuizScreen(Run(AsWritten, s, [GoBack] + ([GoBack] + RestartQuiz())))
  {
    var t := Back(s);
    assert At(t, AfterTen, 1.0) && t.currentQuestionIndex == 1;
    SecondBackStage(t);
    ExtendTrace(AsWritten, s, GoBack, [GoBack] + RestartQuiz());
  }

  /** From the results screen, through the suggested stream and back out to Landing,
      then the quiz restart. */
  lemma LeaveResultsStage(s: State)
    requires AtResults(s) && s.assessmentResult == Some(QuizResult) && s.currentQuestionIndex == 1
    ensures ValidTrace(AsWritten, s, LeaveResults() + RestartQuiz())
    ensures StaleQuizScreen(Run(AsWritten, s, LeaveResults() + RestartQuiz()))
  {
    var e := PickSubject10(Maths, Success([]));
    var t := SelectSubject10(s, Maths, Success([])).state;
    assert At(t, AfterTen, 2.0) && t.currentQuestionIndex == 1;
    FirstBackStage(t);
    ExtendTrace(AsWritten, s, e, [GoBack] + ([GoBack] + RestartQuiz()));
    assert LeaveResults() + RestartQuiz() == [e] + ([GoBack] + ([GoBack] + RestartQuiz()));
  }

  /** The second answer, with a successful analysis, reaches the results screen; then on. */
  lemma LastAnswerStage(s: State)
    requires At(s, SkillsAssessment, 2.0) && s.assessmentQuestions == [Q1, Q2] && s.currentQuestionIndex == 1
    ensures ValidTrace(AsWritten, s, [Answer("b", Success(QuizResult))] + (LeaveResults() + RestartQuiz()))
    ensures StaleQuizScreen(Run(AsWritten, s, [Answer("b", Success(QuizResult))] + (LeaveResults() + RestartQuiz())))
  {
    var t := AnswerSubmit(s, "b", Success(QuizResult)).state;
    assert AtResults(t) && t.assessmentResult == Some(QuizResult) && t.currentQuestionIndex == 1;
    LeaveResultsStage(t);
    ExtendTrace(AsWritten, s, Answer("b", Success(QuizResult)), LeaveResults() + RestartQuiz());
  }

  /** The first answer of the two-question quiz moves to the second question; then on. */
  lemma FirstAnswerStage(s: State)
    requires At(s, SkillsAssessment, 2.0) && s.assessmentQuestions == [Q1, Q2] && s.currentQuestionIndex == 0
    ensures ValidTrace(AsWritten, s, FinishQuiz()[2..] + LeaveResults() + RestartQuiz())
    ensures StaleQuizScreen(Run(AsWritten, s, FinishQuiz()[2..] + LeaveResults() + RestartQuiz()))
  {
    var tail := LeaveResults() + RestartQuiz();
    var t := AnswerSubmit(s, "a", Failure).state;
    assert At(t, SkillsAssessment, 2.0) && t.assessmentQuestions == [Q1, Q2] && t.currentQuestionIndex == 1;
    LastAnswerStage(t);
    ExtendTrace(AsWritten, s, Answer("a", Failure), [Answer("b", Success(QuizResult))] + tail);
    assert FinishQuiz()[2..] + LeaveResults() + RestartQuiz()
      == [Answer("a", Failure)] + ([Answer("b", Success(QuizResult))] + tail);
  }

  /** The whole trace from the start of the first quiz. */
  lemma FinishQuizStage()
    ensures ValidTrace(AsWritten, Initial(), StaleQuizTrace())
    ensures StaleQuizScreen(Run(AsWritten, Initial(), StaleQuizTrace()))
  {
    var v := AsWritten;
    var s0 := Initial();
    var s1 := StartAssessment(s0);
    var s2 := StartHots(s1, Success([Q1, Q2])).state;
    assert At(s2, SkillsAssessment, 2.0) && s2.assessmentQuestions == [Q1, Q2] && s2.currentQuestionIndex == 0;
    var tail := FinishQuiz()[2..] + LeaveResults() + RestartQuiz();
    FirstAnswerStage(s2);
    ExtendTrace(v, s1, PickOpenQuiz(Success([Q1, Q2])), tail);
    ExtendTrace(v, s0, TileAssessment, [PickOpenQuiz(Success([Q1, Q2]))] + tail);
    assert StaleQuizTrace() == [TileAssessment] + ([PickOpenQuiz(Success([Q1, Q2]))] + tail);
  }

  /** As written, a new quiz keeps the previous quiz's question index: the trace
      above reaches assessment step 2 with the index past the end of the list, where
      the question screen's render throws. */
  lemma StaleQuizIndexReachable()
    ensures ValidTrace(AsWritten, Initial(), StaleQuizTrace())
    ensures var r := Run(AsWritten, Initial(), StaleQuizTrace());
      At(r, SkillsAssessment, 2.0) && 0 < |r.assessmentQuestions| <= r.currentQuestionIndex
  {
    FinishQuizStage();
  }

  /** Pick a 12th-grade stream and a course, ask for careers, and go back. */
  function CareerListBackTrace(): seq<Event> {
    [TileAfterTwelve, PickSubject12(PCM, Success(["B.Tech"])), PickCourse("B.Tech"),
     PickFindCareers(Success([])), GoBack]
  }

  /** From the branch choice: ask for careers and go back. */
  lemma FindCareersBackStage(s: State)
    requires At(s, AfterTwelve, 3.0) && s.selectedCollege == None
    ensures ValidTrace(AsWritten, s, CareerListBackTrace()[3..])
    ensures var r := Run(AsWritten, s, CareerListBackTrace()[3..]);
      At(r, AfterTwelve, 6.0) && r.selectedCollege == None
  {
    var t := FindCareers(s, Success([])).state;
    assert At(t, AfterTwelve, 7.0) && t.selectedCollege == None;
    OneStep(AsWritten, t, GoBack);
    ExtendTrace(AsWritten, s, PickFindCareers(Success([])), [GoBack]);
    assert CareerListBackTrace()[3..] == [PickFindCareers(Success([]))] + [GoBack];
  }

  /** From the course list: pick a course, ask for careers, and go back. */
  lemma CareerListBackStage(s: State)
    requires At(s, AfterTwelve, 2.0) && s.courseOptions == ["B.Tech"] && s.selectedCollege == None
    ensures ValidTrace(AsWritten, s, CareerListBackTrace()[2..])
    ensures var r := Run(AsWritten, s, CareerListBackTrace()[2..]);
      At(r, AfterTwelve, 6.0) && r.selectedCollege == None
  {
    var t := SelectCourse12(s, "B.Tech");
    assert At(t, AfterTwelve, 3.0) && t.selectedCollege == None;
    FindCareersBackStage(t);
    ExtendTrace(AsWritten, s, PickCourse("B.Tech"), CareerListBackTrace()[3..]);
    assert CareerListBackTrace()[2..] == [PickCourse("B.Tech")] + CareerListBackTrace()[3..];
  }

  /** As written, back from the career list lands on the admission pathway screen
      although no college was ever chosen. */
  lemma AdmissionWithoutCollegeReachable()
    ensures ValidTrace(AsWritten, Initial(), CareerListBackTrace())
    ensures var r := Run(AsWritten, Initial(), CareerListBackTrace());
      At(r, AfterTwelve, 6.0) && r.selectedCollege == None
  {
    var v := AsWritten;
    var s0 := Initial();
    var s1 := ChooseTile(s0, AfterTwelve);
    var s2 := SelectSubject12(s1, PCM, Success(["B.Tech"])).state;
    assert At(s2, AfterTwelve, 2.0) && s2.courseOptions == ["B.Tech"] && s2.selectedCollege == None;
    var tail := CareerListBackTrace()[2..];
    CareerListBackStage(s2);
    ExtendTrace(v, s1, PickSubject12(PCM, Success(["B.Tech"])), tail);
    ExtendTrace(v, s0, TileAfterTwelve, [PickSubject12(PCM, Success(["B.Tech"]))] + tail);
    assert CareerListBackTrace() == [TileAfterTwelve] + ([PickSubject12(PCM, Success(["B.Tech"]))] + tail);
  }

  /** With the corrections, the admission pathway screen never shows without a
      chosen college. */
  lemma AdmissionShowsChosenCollege(es: seq<Event>)
    requires ValidTrace(Fixed, Initial(), es)
    ensures var r := Run(Fixed, Initial(), es);
      At(r, AfterTwelve, 6.0) ==> r.selectedCollege.Some?
  {
    InitialInv();
    FixedReachableInv(Initial(), es);
  }
}
