/** The session flow controller of the career-guidance app, as written: one
    immutable session record and one pure transition per user action. A
    handler that consults the advisory gateway takes the call's outcome as an
    input and reports the request it issued, so "no call is made" and "which
    endpoint is called" can be stated. */
module Controller {
  import opened Types
  import opened Seqs

  /** The two quiz strategies: interest-tag driven, or open-ended ("I'm really confused"). */
  datatype AssessmentKind = Interest | Hots

  const GenericError: string := "An error occurred. Please try again."
  const NoInterestError: string := "Please select at least one interest."

  /** The interest tags offered on the interest picker. */
  const CommonInterests: seq<string> :=
    ["Physics", "Mathematics", "Computer Science", "Biology", "Chemistry",
     "History", "Literature", "Art & Design", "Economics", "Music"]

  /** The whole session. `step` is exact: it takes the values 1, 1.5, 2, ..., 8. */
  datatype State = State(
    flow: Flow,
    step: real,
    isLoading: bool,
    error: Option<string>,
    selectedSubject10: Option<SubjectStream10>,
    selectedSubject12: Option<SubjectStream12>,
    careerOptions: seq<CareerOption>,
    courseOptions: seq<string>,
    selectedCareer: Option<string>,
    selectedCourse: Option<string>,
    pathway: string,
    studentProfile: StudentProfile,
    colleges: seq<College>,
    selectedCollege: Option<string>,
    assessmentType: Option<AssessmentKind>,
    assessmentInterests: seq<string>,
    assessmentQuestions: seq<AssessmentQuestion>,
    currentQuestionIndex: nat,
    assessmentAnswers: map<int, string>,
    assessmentResult: Option<AssessmentResult>,
    jobMarketQuery: string,
    jobMarketResult: Option<JobMarketAnalysisResult>,
    expertFormSubmitted: bool)

  /** One request to the advisory gateway, with the parameters the handler passes.
      A course parameter is optional because the handlers pass the selected course
      with a non-null assertion that nothing checks at run time. */
  datatype Request =
    | CareerOptions10(subject: SubjectStream10)
    | CareerPathway10(subject10: Option<SubjectStream10>, career: string)
    | CourseOptions12(subject12: SubjectStream12)
    | CareerOptions12(course: Option<string>)
    | CollegeSuggestions(course: Option<string>, profile: StudentProfile)
    | AdmissionPathway(college: string, course: Option<string>)
    | CareerPathway12(course: Option<string>, career: string)
    | HotsQuestions
    | InterestQuestions(interests: seq<string>)
    | AnalyzeHots(answers: map<int, string>)
    | AnalyzeInterests(answers: map<int, string>)
    | JobMarket(query: string)

  /** The state a handler leaves behind, and the gateway request it issued, if any. */
  datatype Transition = Transition(state: State, call: Option<Request>)

  const EmptyProfile: StudentProfile := StudentProfile("", "", "")

  /** The session as the app starts it. */
  function Initial(): (r: State)
    ensures r.flow == Landing && r.step == 1.0 && !r.isLoading && r.error == None
    ensures r.selectedSubject10 == None && r.selectedSubject12 == None && r.selectedCareer == None
    ensures r.selectedCourse == None && r.selectedCollege == None && r.assessmentType == None
    ensures r.careerOptions == [] && r.courseOptions == [] && r.colleges == [] && r.pathway == ""
    ensures r.studentProfile == StudentProfile("", "", "")
    ensures r.assessmentInterests == [] && r.assessmentQuestions == [] && r.currentQuestionIndex == 0
    ensures r.assessmentAnswers == map[] && r.assessmentResult == None
    ensures r.jobMarketQuery == "" && r.jobMarketResult == None && !r.expertFormSubmitted
  {
    State(Landing, 1.0, false, None, None, None, [], [], None, None, "", EmptyProfile, [], None,
          None, [], [], 0, map[], None, "", None, false)
  }

  /** Start over: every field back to its initial value, except the loading flag,
      which reset leaves alone. */
  function Reset(s: State): (r: State)
    ensures r == Initial().(isLoading := s.isLoading)
    ensures r.flow == Landing && r.step == 1.0 && r.error == None
  {
    s.(flow := Landing, step := 1.0, error := None,
       selectedSubject10 := None, selectedSubject12 := None,
       careerOptions := [], courseOptions := [],
       selectedCareer := None, selectedCourse := None, pathway := "",
       studentProfile := EmptyProfile, colleges := [], selectedCollege := None,
       assessmentType := None, assessmentInterests := [], assessmentQuestions := [],
       currentQuestionIndex := 0, assessmentAnswers := map[], assessmentResult := None,
       jobMarketQuery := "", jobMarketResult := None, expertFormSubmitted := false)
  }

  lemma ResetIdempotent(s: State)
    ensures Reset(Reset(s)) == Reset(s)
    ensures Reset(s).isLoading == s.isLoading
  {
  }

  /** The state while a gateway call is in flight: error cleared, loading raised,
      nothing else touched. */
  function InFlight(s: State): (r: State)
    ensures r.isLoading && r.error == None
    ensures r.(isLoading := s.isLoading, error := s.error) == s
  {
    s.(isLoading := true, error := None)
  }

  /** The state after a failed call from s: the generic error shown, loading
      lowered, and no other change, so the same screen stays up for a retry. */
  function FailedFrom(s: State): (r: State)
    ensures r.flow == s.flow && r.step == s.step && !r.isLoading
    ensures r.error == Some(GenericError)
    ensures r.(isLoading := s.isLoading, error := s.error) == s
  {
    s.(isLoading := false, error := Some(GenericError))
  }

  /** The load/error wrapper around one gateway call. */
  function ApiCall<T>(s: State, req: Request, o: Outcome<T>, onSuccess: (State, T) -> State): (r: Transition)
    ensures r.call == Some(req)
    ensures !r.state.isLoading
    ensures o.Failure? ==> r.state == FailedFrom(s)
    ensures o.Success? ==> r.state == onSuccess(InFlight(s), o.data).(isLoading := false)
  {
    var pending := InFlight(s);
    match o
    case Success(data) => Transition(onSuccess(pending, data).(isLoading := false), Some(req))
    case Failure => Transition(pending.(isLoading := false, error := Some(GenericError)), Some(req))
  }

  /** True when the quiz is on screen (a question list being answered or the
      interest picker), the two places where back abandons the quiz path. */
  predicate InQuiz(s: State) {
    s.flow == SkillsAssessment && (s.step == 1.5 || s.step == 2.0)
  }

  /** The back button, as written: abandon the quiz, else go one step down,
      else leave the flow for Landing, else start over. */
  function Back(s: State): (r: State)
    ensures InQuiz(s) ==>
      r == s.(step := 1.0, currentQuestionIndex := 0, assessmentAnswers := map[], assessmentQuestions := [])
    ensures !InQuiz(s) && s.step > 1.0 ==> r == s.(step := s.step - 1.0)
    ensures !InQuiz(s) && s.step <= 1.0 && s.flow != Landing ==>
      r == s.(flow := Landing, jobMarketResult := None, jobMarketQuery := "", expertFormSubmitted := false)
    ensures !InQuiz(s) && s.step <= 1.0 && s.flow == Landing ==> r == Reset(s)
    ensures r.isLoading == s.isLoading
  {
    if s.flow == SkillsAssessment && (s.step == 1.5 || s.step == 2.0) then
      s.(step := 1.0, currentQuestionIndex := 0, assessmentAnswers := map[], assessmentQuestions := [])
    else if s.step > 1.0 then
      s.(step := s.step - 1.0)
    else if s.flow != Landing then
      s.(flow := Landing, jobMarketResult := None, jobMarketQuery := "", expertFormSubmitted := false)
    else
      Reset(s)
  }

  // --- After 10th ---

  function SelectSubject10(s: State, subject: SubjectStream10, o: Outcome<seq<CareerOption>>): (r: Transition)
    ensures r.call == Some(CareerOptions10(subject))
    ensures r.state.selectedSubject10 == Some(subject) && !r.state.isLoading
    ensures o.Success? ==>
      r.state.flow == AfterTen && r.state.step == 2.0 && r.state.careerOptions == o.data && r.state.error == None
    ensures o.Success? ==> r.state == s.(selectedSubject10 := Some(subject), careerOptions := o.data,
                                          flow := AfterTen, step := 2.0, error := None, isLoading := false)
    ensures o.Failure? ==> r.state == FailedFrom(s.(selectedSubject10 := Some(subject)))
  {
    var s1 := s.(selectedSubject10 := Some(subject));
    ApiCall(s1, CareerOptions10(subject), o,
      (m: State, d: seq<CareerOption>) => m.(careerOptions := d, flow := AfterTen, step := 2.0))
  }

  /** Choosing a career after 10th. The subject is optional because the results
      screen passes the first suggested stream, which is absent when none was suggested. */
  function SelectCareer10(s: State, career: string, subject: Option<SubjectStream10>, o: Outcome<string>): (r: Transition)
    ensures r.call == Some(CareerPathway10(subject, career))
    ensures r.state.selectedCareer == Some(career) && r.state.selectedSubject10 == subject
    ensures !r.state.isLoading
    ensures o.Success? ==>
      r.state.flow == AfterTen && r.state.step == 3.0 && r.state.pathway == o.data && r.state.error == None
    ensures o.Success? ==> r.state == s.(selectedCareer := Some(career), selectedSubject10 := subject, pathway := o.data,
                                          flow := AfterTen, step := 3.0, error := None, isLoading := false)
    ensures o.Failure? ==> r.state == FailedFrom(s.(selectedCareer := Some(career), selectedSubject10 := subject))
  {
    var s1 := s.(selectedCareer := Some(career), selectedSubject10 := subject);
    ApiCall(s1, CareerPathway10(subject, career), o,
      (m: State, d: string) => m.(pathway := d, flow := AfterTen, step := 3.0))
  }

  // --- After 12th ---

  function SelectSubject12(s: State, subject: SubjectStream12, o: Outcome<seq<string>>): (r: Transition)
    ensures r.call == Some(CourseOptions12(subject))
    ensures r.state.selectedSubject12 == Some(subject) && !r.state.isLoading
    ensures o.Success? ==>
      r.state.flow == AfterTwelve && r.state.step == 2.0 && r.state.courseOptions == o.data && r.state.error == None
    ensures o.Success? ==> r.state == s.(selectedSubject12 := Some(subject), courseOptions := o.data,
                                          flow := AfterTwelve, step := 2.0, error := None, isLoading := false)
    ensures o.Failure? ==> r.state == FailedFrom(s.(selectedSubject12 := Some(subject)))
  {
    var s1 := s.(selectedSubject12 := Some(subject));
    ApiCall(s1, CourseOptions12(subject), o,
      (m: State, d: seq<string>) => m.(courseOptions := d, flow := AfterTwelve, step := 2.0))
  }

  /** Choosing a course is a pure selection: no gateway call. */
  function SelectCourse12(s: State, course: string): (r: State)
    ensures r.selectedCourse == Some(course) && r.step == 3.0
    ensures r.(selectedCourse := s.selectedCourse, step := s.step) == s
  {
    s.(selectedCourse := Some(course), step := 3.0)
  }

  /** "Find best colleges": straight to the profile form, no gateway call. */
  function FindColleges(s: State): (r: State)
    ensures r.step == 4.0 && r.(step := s.step) == s
  {
    s.(step := 4.0)
  }

  function FindCareers(s: State, o: Outcome<seq<CareerOption>>): (r: Transition)
    ensures r.call == Some(CareerOptions12(s.selectedCourse)) && !r.state.isLoading
    ensures o.Success? ==>
      r.state.flow == s.flow && r.state.step == 7.0 && r.state.careerOptions == o.data && r.state.error == None
    ensures o.Success? ==> r.state == s.(careerOptions := o.data, step := 7.0, error := None, isLoading := false)
    ensures o.Failure? ==> r.state == FailedFrom(s)
  {
    ApiCall(s, CareerOptions12(s.selectedCourse), o,
      (m: State, d: seq<CareerOption>) => m.(careerOptions := d, step := 7.0))
  }

  function ProfileSubmit(s: State, o: Outcome<seq<College>>): (r: Transition)
    ensures r.call == Some(CollegeSuggestions(s.selectedCourse, s.studentProfile)) && !r.state.isLoading
    ensures o.Success? ==>
      r.state.flow == s.flow && r.state.step == 5.0 && r.state.colleges == o.data && r.state.error == None
    ensures o.Success? ==> r.state == s.(colleges := o.data, step := 5.0, error := None, isLoading := false)
    ensures o.Failure? ==> r.state == FailedFrom(s)
  {
    ApiCall(s, CollegeSuggestions(s.selectedCourse, s.studentProfile), o,
      (m: State, d: seq<College>) => m.(colleges := d, step := 5.0))
  }

  function SelectCollege(s: State, college: string, o: Outcome<string>): (r: Transition)
    ensures r.call == Some(AdmissionPathway(college, s.selectedCourse))
    ensures r.state.selectedCollege == Some(college) && !r.state.isLoading
    ensures o.Success? ==>
      r.state.flow == s.flow && r.state.step == 6.0 && r.state.pathway == o.data && r.state.error == None
    ensures o.Success? ==>
      r.state == s.(selectedCollege := Some(college), pathway := o.data, step := 6.0, error := None, isLoading := false)
    ensures o.Failure? ==> r.state == FailedFrom(s.(selectedCollege := Some(college)))
  {
    var s1 := s.(selectedCollege := Some(college));
    ApiCall(s1, AdmissionPathway(college, s.selectedCourse), o,
      (m: State, d: string) => m.(pathway := d, step := 6.0))
  }

  function SelectCareer12(s: State, career: string, o: Outcome<string>): (r: Transition)
    ensures r.call == Some(CareerPathway12(s.selectedCourse, career))
    ensures r.state.selectedCareer == Some(career) && !r.state.isLoading
    ensures o.Success? ==>
      r.state.flow == s.flow && r.state.step == 8.0 && r.state.pathway == o.data && r.state.error == None
    ensures o.Success? ==>
      r.state == s.(selectedCareer := Some(career), pathway := o.data, step := 8.0, error := None, isLoading := false)
    ensures o.Failure? ==> r.state == FailedFrom(s.(selectedCareer := Some(career)))
  {
    var s1 := s.(selectedCareer := Some(career));
    ApiCall(s1, CareerPathway12(s.selectedCourse, career), o,
      (m: State, d: string) => m.(pathway := d, step := 8.0))
  }

  // --- Skills assessment ---

  /** The assessment tile: the assessment flow's first screen. */
  function StartAssessment(s: State): (r: State)
    ensures r.flow == SkillsAssessment && r.step == 1.0
    ensures r.(flow := s.flow, step := s.step) == s
  {
    s.(flow := SkillsAssessment, step := 1.0)
  }

  /** "I have a few interests": the interest picker, the only place step 1.5 is set. */
  function ChooseInterests(s: State): (r: State)
    ensures r.step == 1.5 && r.(step := s.step) == s
  {
    s.(step := 1.5)
  }

  /** Flip one tag's membership: drop every occurrence if present, append if absent. */
  function Toggle(xs: seq<string>, tag: string): (r: seq<string>)
    ensures tag in r <==> tag !in xs
    ensures forall t :: t != tag ==> (t in r <==> t in xs)
    ensures NoDup(xs) ==> NoDup(r)
    ensures tag !in xs ==> r == xs + [tag]
    ensures NoDup(xs) && tag in xs ==> exists k :: 0 <= k < |xs| && xs[k] == tag && r == xs[..k] + xs[k + 1..]
  {
    if tag in xs then
      assert NoDup(xs) ==> exists k :: 0 <= k < |xs| && xs[k] == tag && Remove(xs, tag) == xs[..k] + xs[k + 1..] by {
        if NoDup(xs) {
          var k :| 0 <= k < |xs| && xs[k] == tag;
          RemoveSplices(xs, tag, k);
        }
      }
      Remove(xs, tag)
    else
      assert NoDup(xs) ==> NoDup(xs + [tag]) by {
        if NoDup(xs) {
          forall i, j | 0 <= i < j < |xs + [tag]| ensures (xs + [tag])[i] != (xs + [tag])[j] {
            if j == |xs| {
              assert (xs + [tag])[i] == xs[i];
            } else {
              assert (xs + [tag])[i] == xs[i] && (xs + [tag])[j] == xs[j];
            }
          }
        }
      }
      xs + [tag]
  }

  /** Toggling the same tag twice restores the original membership exactly, and
      when the tag was absent it restores the very same sequence. */
  lemma {:induction false} ToggleTwice(xs: seq<string>, tag: string)
    ensures forall t :: t in Toggle(Toggle(xs, tag), tag) <==> t in xs
    ensures tag !in xs ==> Toggle(Toggle(xs, tag), tag) == xs
  {
    if tag !in xs {
      assert tag in xs + [tag];
      RemoveAppended(xs, tag);
    }
  }

  /** Toggling a tag on a duplicate-free list changes its length by exactly one. */
  lemma ToggleLength(xs: seq<string>, tag: string)
    requires NoDup(xs)
    ensures tag in xs ==> |Toggle(xs, tag)| == |xs| - 1
    ensures tag !in xs ==> |Toggle(xs, tag)| == |xs| + 1
  {
    if tag in xs {
      RemoveMember(xs, tag);
    }
  }

  function InterestToggle(s: State, tag: string): (r: State)
    ensures (tag in r.assessmentInterests) <==> (tag !in s.assessmentInterests)
    ensures forall t :: t != tag ==> (t in r.assessmentInterests <==> t in s.assessmentInterests)
    ensures r.assessmentInterests == Toggle(s.assessmentInterests, tag)
    ensures NoDup(s.assessmentInterests) ==> NoDup(r.assessmentInterests)
    ensures r.(assessmentInterests := s.assessmentInterests) == s
  {
    s.(assessmentInterests := Toggle(s.assessmentInterests, tag))
  }

  /** "I'm really confused": the open-ended quiz. The kind is recorded before the call. */
  function StartHots(s: State, o: Outcome<seq<AssessmentQuestion>>): (r: Transition)
    ensures r.call == Some(HotsQuestions)
    ensures r.state.assessmentType == Some(Hots) && !r.state.isLoading
    ensures o.Success? ==>
      r.state.flow == s.flow && r.state.step == 2.0 && r.state.assessmentQuestions == o.data
      && r.state.currentQuestionIndex == s.currentQuestionIndex
      && r.state.assessmentAnswers == s.assessmentAnswers && r.state.error == None
    ensures o.Success? ==> r.state == s.(assessmentType := Some(Hots), assessmentQuestions := o.data,
                                          step := 2.0, error := None, isLoading := false)
    ensures o.Failure? ==> r.state == FailedFrom(s.(assessmentType := Some(Hots)))
  {
    var s1 := s.(assessmentType := Some(Hots));
    ApiCall(s1, HotsQuestions, o,
      (m: State, d: seq<AssessmentQuestion>) => m.(assessmentQuestions := d, step := 2.0))
  }

  /** Generate the interest quiz; with no interest chosen, only the validation error is set. */
  function InterestsSubmit(s: State, o: Outcome<seq<AssessmentQuestion>>): (r: Transition)
    ensures |s.assessmentInterests| == 0 ==>
      r.call == None && r.state == s.(error := Some(NoInterestError))
    ensures |s.assessmentInterests| > 0 ==>
      && r.call == Some(InterestQuestions(s.assessmentInterests))
      && r.state.assessmentType == Some(Interest) && !r.state.isLoading
      && r.state.assessmentInterests == s.assessmentInterests
      && (o.Success? ==>
            r.state.flow == s.flow && r.state.step == 2.0 && r.state.assessmentQuestions == o.data
            && r.state.currentQuestionIndex == s.currentQuestionIndex
            && r.state.assessmentAnswers == s.assessmentAnswers && r.state.error == None)
      && (o.Success? ==> r.state == s.(assessmentType := Some(Interest), assessmentQuestions := o.data,
                                        step := 2.0, error := None, isLoading := false))
      && (o.Failure? ==> r.state == FailedFrom(s.(assessmentType := Some(Interest))))
  {
    if |s.assessmentInterests| == 0 then
      Transition(s.(error := Some(NoInterestError)), None)
    else
      var s1 := s.(assessmentType := Some(Interest));
      ApiCall(s1, InterestQuestions(s.assessmentInterests), o,
        (m: State, d: seq<AssessmentQuestion>) => m.(assessmentQuestions := d, step := 2.0))
  }

  /** The analysis request the last answer triggers: the open-ended analysis for
      an open-ended quiz, the interest analysis for anything else. */
  function AnalysisFor(kind: Option<AssessmentKind>, answers: map<int, string>): (r: Request)
    ensures r.AnalyzeHots? <==> kind == Some(Hots)
    ensures r.AnalyzeInterests? <==> kind != Some(Hots)
    ensures r.answers == answers
  {
    if kind == Some(Hots) then AnalyzeHots(answers) else AnalyzeInterests(answers)
  }

  /** Record the answer to the current question under its id; then either move
      to the next question, or, after the last one, request the analysis. With no
      current question the handler fails before changing anything. */
  function AnswerSubmit(s: State, answer: string, o: Outcome<AssessmentResult>): (r: Transition)
    ensures s.currentQuestionIndex >= |s.assessmentQuestions| ==> r == Transition(s, None)
    ensures s.currentQuestionIndex < |s.assessmentQuestions| ==>
      var q := s.assessmentQuestions[s.currentQuestionIndex];
      var answers := s.assessmentAnswers[q.id := answer];
      && r.state.assessmentAnswers == answers
      && r.state.assessmentQuestions == s.assessmentQuestions
      && r.state.flow == s.flow
      && (s.currentQuestionIndex < |s.assessmentQuestions| - 1 ==>
            && r.call == None
            && r.state == s.(assessmentAnswers := answers, currentQuestionIndex := s.currentQuestionIndex + 1))
      && (s.currentQuestionIndex == |s.assessmentQuestions| - 1 ==>
            && r.call == Some(if s.assessmentType == Some(Hots) then AnalyzeHots(answers) else AnalyzeInterests(answers))
            && r.state.currentQuestionIndex == s.currentQuestionIndex
            && !r.state.isLoading
            && (o.Success? ==> r.state.step == 3.0 && r.state.assessmentResult == Some(o.data))
            && (o.Success? ==> r.state == s.(assessmentAnswers := answers, assessmentResult := Some(o.data),
                                             step := 3.0, error := None, isLoading := false))
            && (o.Failure? ==> r.state == FailedFrom(s.(assessmentAnswers := answers))))
  {
    if s.currentQuestionIndex >= |s.assessmentQuestions| then Transition(s, None)
    else
      var q := s.assessmentQuestions[s.currentQuestionIndex];
      var s1 := s.(assessmentAnswers := s.assessmentAnswers[q.id := answer]);
      if s.currentQuestionIndex < |s.assessmentQuestions| - 1 then
        Transition(s1.(currentQuestionIndex := s.currentQuestionIndex + 1), None)
      else
        ApiCall(s1, AnalysisFor(s.assessmentType, s1.assessmentAnswers), o,
          (m: State, d: AssessmentResult) => m.(assessmentResult := Some(d), step := 3.0))
  }

  /** The answers already given are kept, and the current question's id is added. */
  lemma AnswersGrow(s: State, answer: string, o: Outcome<AssessmentResult>)
    requires s.currentQuestionIndex < |s.assessmentQuestions|
    ensures var r := AnswerSubmit(s, answer, o).state;
      r.assessmentAnswers.Keys == s.assessmentAnswers.Keys + {s.assessmentQuestions[s.currentQuestionIndex].id}
  {
  }

  function QuestionIds(qs: seq<AssessmentQuestion>): set<int> {
    set q | q in qs :: q.id
  }

  /** Submit the given answers one after another; only the last can reach the gateway. */
  function AnswerAll(s: State, given: seq<string>, o: Outcome<AssessmentResult>): State
    decreases |given|
  {
    if |given| == 0 then s else AnswerAll(AnswerSubmit(s, given[0], o).state, given[1..], o)
  }

  /** The ids of the questions from index i on: the i-th question's id and those after it. */
  lemma QuestionIdsSplit(qs: seq<AssessmentQuestion>, i: nat)
    requires i < |qs|
    ensures QuestionIds(qs[i..]) == {qs[i].id} + QuestionIds(qs[i + 1..])
    ensures i == |qs| - 1 ==> QuestionIds(qs[i + 1..]) == {}
  {
    assert qs[i..] == [qs[i]] + qs[i + 1..];
  }

  /** An answer before the last question only records it and moves on. */
  lemma AnswerAdvances(s: State, answer: string, o: Outcome<AssessmentResult>)
    requires s.currentQuestionIndex < |s.assessmentQuestions| - 1
    ensures var t := AnswerSubmit(s, answer, o).state;
      && t.assessmentAnswers.Keys == s.assessmentAnswers.Keys + {s.assessmentQuestions[s.currentQuestionIndex].id}
      && t.currentQuestionIndex == s.currentQuestionIndex + 1
      && t.assessmentQuestions == s.assessmentQuestions
      && t.step == s.step
  {
  }

  /** The answer to the last question records it and asks for the analysis. */
  lemma AnswerFinishes(s: State, answer: string, o: Outcome<AssessmentResult>)
    requires s.currentQuestionIndex == |s.assessmentQuestions| - 1
    ensures var t := AnswerSubmit(s, answer, o).state;
      && t.assessmentAnswers.Keys == s.assessmentAnswers.Keys + {s.assessmentQuestions[s.currentQuestionIndex].id}
      && t.currentQuestionIndex == s.currentQuestionIndex
      && t.assessmentQuestions == s.assessmentQuestions
      && (o.Success? ==> t.step == 3.0 && t.assessmentResult == Some(o.data))
      && (o.Failure? ==> t.step == s.step && t.error == Some(GenericError))
  {
  }

  /** Answering every remaining question records an answer under each remaining
      question's id and stops on the last question. */
  lemma {:induction false} QuizCompletes(s: State, given: seq<string>, o: Outcome<AssessmentResult>)
    requires |given| > 0 && s.currentQuestionIndex + |given| == |s.assessmentQuestions|
    ensures var r := AnswerAll(s, given, o);
      && r.assessmentAnswers.Keys
         == s.assessmentAnswers.Keys + QuestionIds(s.assessmentQuestions[s.currentQuestionIndex..])
      && r.currentQuestionIndex == |s.assessmentQuestions| - 1
      && r.assessmentQuestions == s.assessmentQuestions
    decreases |given|
  {
    var t := AnswerSubmit(s, given[0], o).state;
    assert AnswerAll(s, given, o) == AnswerAll(t, given[1..], o);
    QuestionIdsSplit(s.assessmentQuestions, s.currentQuestionIndex);
    if |given| == 1 {
      AnswerFinishes(s, given[0], o);
      assert AnswerAll(t, given[1..], o) == t;
    } else {
      AnswerAdvances(s, given[0], o);
      QuizCompletes(t, given[1..], o);
    }
  }

  /** Only the answer to the last question consults the gateway: after all the
      remaining answers the results screen shows the analysis when it succeeds,
      and otherwise the quiz stays on its screen with the generic error. */
  lemma {:induction false} QuizOutcome(s: State, given: seq<string>, o: Outcome<AssessmentResult>)
    requires |given| > 0 && s.currentQuestionIndex + |given| == |s.assessmentQuestions|
    ensures var r := AnswerAll(s, given, o);
      && (o.Success? ==> r.step == 3.0 && r.assessmentResult == Some(o.data))
      && (o.Failure? ==> r.step == s.step && r.error == Some(GenericError))
    decreases |given|
  {
    var t := AnswerSubmit(s, given[0], o).state;
    assert AnswerAll(s, given, o) == AnswerAll(t, given[1..], o);
    if |given| == 1 {
      AnswerFinishes(s, given[0], o);
      assert AnswerAll(t, given[1..], o) == t;
    } else {
      AnswerAdvances(s, given[0], o);
      QuizOutcome(t, given[1..], o);
    }
  }

  // --- Job market and expert contact ---

  /** Submit a job-market query; an empty query does nothing. The query stays as typed. */
  function JobMarketSubmit(s: State, o: Outcome<JobMarketAnalysisResult>): (r: Transition)
    ensures s.jobMarketQuery == "" ==> r == Transition(s, None)
    ensures s.jobMarketQuery != "" ==>
      && r.call == Some(JobMarket(s.jobMarketQuery))
      && (o.Success? ==>
            r.state == s.(jobMarketResult := Some(o.data), isLoading := false, error := None))
      && (o.Failure? ==> r.state == FailedFrom(s))
  {
    if s.jobMarketQuery == "" then Transition(s, None)
    else
      ApiCall(s, JobMarket(s.jobMarketQuery), o,
        (m: State, d: JobMarketAnalysisResult) => m.(jobMarketResult := Some(d)))
  }

  /** Two successful submissions of one query: the second reply replaces the first
      entirely and the query itself is kept. */
  lemma JobMarketResubmit(s: State, first: JobMarketAnalysisResult, second: JobMarketAnalysisResult)
    requires s.jobMarketQuery != ""
    ensures var r := JobMarketSubmit(JobMarketSubmit(s, Success(first)).state, Success(second)).state;
      r.jobMarketResult == Some(second) && r.jobMarketQuery == s.jobMarketQuery
  {
  }

  /** The expert-contact stub, taken as one atomic step once its delay has elapsed. */
  function ExpertFormSubmit(s: State): (r: State)
    ensures r.expertFormSubmitted && !r.isLoading
    ensures r.(expertFormSubmitted := s.expertFormSubmitted, isLoading := s.isLoading) == s
  {
    s.(expertFormSubmitted := true, isLoading := false)
  }

  /** A Landing tile that only switches the flow, keeping the current step. */
  function ChooseTile(s: State, target: Flow): (r: State)
    ensures r.flow == target && r.(flow := s.flow) == s
  {
    s.(flow := target)
  }
}
