/** The controller's handlers where the code as written departs from its evident
    intent, corrected:
    - starting a quiz (open-ended or interest-based) also starts its question
      index at 0 with no answers, as back-navigation out of a quiz already does;
    - back from the career list reached by "find careers" (step 7 of the
      after-12th flow) returns to the screen it came from (step 3), not to
      step 6, the admission pathway of the colleges branch.
    Every other handler is used as written. */
module Corrected {
  import opened Types
  import Controller

  /** A quiz whose questions just arrived starts at its first question, unanswered. */
  function FreshQuiz(t: Controller.Transition, succeeded: bool): (r: Controller.Transition)
    ensures r.call == t.call
    ensures succeeded ==> r.state.currentQuestionIndex == 0 && r.state.assessmentAnswers == map[]
    ensures succeeded ==> r.state.(currentQuestionIndex := t.state.currentQuestionIndex,
                                   assessmentAnswers := t.state.assessmentAnswers) == t.state
    ensures !succeeded ==> r == t
  {
    if succeeded then t.(state := t.state.(currentQuestionIndex := 0, assessmentAnswers := map[])) else t
  }

  function StartHots(s: Controller.State, o: Outcome<seq<AssessmentQuestion>>): (r: Controller.Transition)
    ensures r.call == Some(Controller.HotsQuestions)
    ensures r.state.assessmentType == Some(Controller.Hots) && !r.state.isLoading
    ensures o.Success? ==>
      r.state.step == 2.0 && r.state.assessmentQuestions == o.data
      && r.state.currentQuestionIndex == 0 && r.state.assessmentAnswers == map[]
    ensures o.Success? ==>
      r.state == s.(assessmentType := Some(Controller.Hots), assessmentQuestions := o.data, step := 2.0,
                    currentQuestionIndex := 0, assessmentAnswers := map[], error := None, isLoading := false)
    ensures o.Failure? ==> r == Controller.StartHots(s, o)
  {
    FreshQuiz(Controller.StartHots(s, o), o.Success?)
  }

  function InterestsSubmit(s: Controller.State, o: Outcome<seq<AssessmentQuestion>>): (r: Controller.Transition)
    ensures |s.assessmentInterests| == 0 ==> r == Controller.InterestsSubmit(s, o) && r.call == None
    ensures |s.assessmentInterests| > 0 && o.Success? ==>
      r.call == Some(Controller.InterestQuestions(s.assessmentInterests))
      && r.state.step == 2.0 && r.state.assessmentQuestions == o.data
      && r.state.currentQuestionIndex == 0 && r.state.assessmentAnswers == map[]
      && r.state == s.(assessmentType := Some(Controller.Interest), assessmentQuestions := o.data, step := 2.0,
                       currentQuestionIndex := 0, assessmentAnswers := map[], error := None, isLoading := false)
    ensures o.Failure? ==> r == Controller.InterestsSubmit(s, o)
  {
    FreshQuiz(Controller.InterestsSubmit(s, o), |s.assessmentInterests| > 0 && o.Success?)
  }

  /** The screen back leads to from each step of the after-12th flow's branches. */
  function Back(s: Controller.State): (r: Controller.State)
    ensures s.flow == AfterTwelve && s.step == 7.0 ==> r == s.(step := 3.0)
    ensures !(s.flow == AfterTwelve && s.step == 7.0) ==> r == Controller.Back(s)
  {
    if s.flow == AfterTwelve && s.step == 7.0 then s.(step := 3.0) else Controller.Back(s)
  }
}
