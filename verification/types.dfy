/** The value shapes shared by the flow controller and the advisory gateway:
    career options, colleges, the student profile, quiz questions and results,
    job-market results, and the enumerations of flows and subject streams. */
module Types {

  datatype Option<+T> = None | Some(value: T)

  /** What a gateway call delivered: the parsed reply, or a failure of any kind
      (network, provider, malformed reply), which the controller never distinguishes. */
  datatype Outcome<+T> = Success(data: T) | Failure

  /** The closed string union 'High' | 'Medium' | 'Low', used both for a career's
      salary potential and for a job market's demand. */
  datatype Level = High | Medium | Low {
    function Text(): string {
      match this
      case High => "High"
      case Medium => "Medium"
      case Low => "Low"
    }
  }

  /** Reads a level from its wire text; every other string is rejected. */
  function ParseLevel(t: string): (r: Option<Level>)
    ensures r.Some? ==> r.value.Text() == t
  {
    if t == "High" then Some(High)
    else if t == "Medium" then Some(Medium)
    else if t == "Low" then Some(Low)
    else None
  }

  lemma LevelRoundTrip(l: Level)
    ensures ParseLevel(l.Text()) == Some(l)
  {
  }

  /** The closed string union 'Dream' | 'Reach' | 'Safety' of a college suggestion. */
  datatype Tier = Dream | Reach | Safety {
    function Text(): string {
      match this
      case Dream => "Dream"
      case Reach => "Reach"
      case Safety => "Safety"
    }
  }

  function ParseTier(t: string): (r: Option<Tier>)
    ensures r.Some? ==> r.value.Text() == t
  {
    if t == "Dream" then Some(Dream)
    else if t == "Reach" then Some(Reach)
    else if t == "Safety" then Some(Safety)
    else None
  }

  lemma TierRoundTrip(t: Tier)
    ensures ParseTier(t.Text()) == Some(t)
  {
  }

  datatype CareerOption = CareerOption(careerName: string, description: string, estimatedSalaryPotential: Level)

  datatype College = College(collegeName: string, location: string, tier: Tier, reason: string)

  datatype StudentProfile = StudentProfile(marks10: string, marks12: string, achievements: string)

  /** A quiz question; its numeric id is the key under which its answer is recorded. */
  datatype AssessmentQuestion = AssessmentQuestion(id: int, question: string, options: seq<string>)

  /** The analysis of a finished quiz; its suggested streams are 10th-grade streams only. */
  datatype AssessmentResult = AssessmentResult(
    summary: string,
    suggestedStreams: seq<SubjectStream10>,
    suggestedCareers: seq<CareerOption>)

  datatype JobMarketAnalysisResult = JobMarketAnalysisResult(
    summary: string,
    demand: Level,
    salaryTrends: string,
    requiredSkills: seq<string>)

  /** The six top-level journeys; a numeric enumeration, Landing first. */
  datatype Flow = Landing | AfterTen | AfterTwelve | SkillsAssessment | TalkToExpert | JobMarketAnalysis {
    function Ordinal(): nat {
      match this
      case Landing => 0
      case AfterTen => 1
      case AfterTwelve => 2
      case SkillsAssessment => 3
      case TalkToExpert => 4
      case JobMarketAnalysis => 5
    }
  }

  /** The flow whose enumeration value is n, if any. */
  function FlowOf(n: int): (r: Option<Flow>)
    ensures r.Some? <==> 0 <= n < 6
    ensures r.Some? ==> r.value.Ordinal() == n
  {
    if n == 0 then Some(Landing)
    else if n == 1 then Some(AfterTen)
    else if n == 2 then Some(AfterTwelve)
    else if n == 3 then Some(SkillsAssessment)
    else if n == 4 then Some(TalkToExpert)
    else if n == 5 then Some(JobMarketAnalysis)
    else None
  }

  /** Flow is closed: exactly the six ordinals 0..5, each naming one flow. */
  lemma FlowClosed(f: Flow)
    ensures f.Ordinal() < 6
    ensures FlowOf(f.Ordinal()) == Some(f)
  {
  }

  datatype SubjectStream10 = Maths | Biology | Commerce10 | Arts10 {
    function Value(): string {
      match this
      case Maths => "Maths (PCM/PCMB)"
      case Biology => "Biology (PCB/PCMB)"
      case Commerce10 => "Commerce"
      case Arts10 => "Arts/Humanities"
    }
  }

  datatype SubjectStream12 = PCM | PCB | Commerce12 | Arts12 {
    function Value(): string {
      match this
      case PCM => "PCM (Physics, Chemistry, Maths)"
      case PCB => "PCB (Physics, Chemistry, Biology)"
      case Commerce12 => "Commerce"
      case Arts12 => "Arts/Humanities"
    }
  }

  /** The 10th-grade streams in declaration order, as the stream picker lists them. */
  function Streams10(): (r: seq<SubjectStream10>)
    ensures |r| == 4
    ensures forall i, j :: 0 <= i < j < |r| ==> r[i].Value() != r[j].Value()
  {
    [Maths, Biology, Commerce10, Arts10]
  }

  /** The 12th-grade streams in declaration order. */
  function Streams12(): (r: seq<SubjectStream12>)
    ensures |r| == 4
    ensures forall i, j :: 0 <= i < j < |r| ==> r[i].Value() != r[j].Value()
  {
    [PCM, PCB, Commerce12, Arts12]
  }

  /** The stream lists are complete: every stream is offered. */
  lemma Streams10Complete(s: SubjectStream10)
    ensures s in Streams10()
  {
    match s
    case Maths =>
    case Biology =>
    case Commerce10 =>
    case Arts10 =>
  }

  lemma Streams12Complete(s: SubjectStream12)
    ensures s in Streams12()
  {
    match s
    case PCM =>
    case PCB =>
    case Commerce12 =>
    case Arts12 =>
  }

  /** Reads a 10th-grade stream back from its string value. */
  function Stream10Of(v: string): (r: Option<SubjectStream10>)
    ensures r.Some? ==> r.value.Value() == v
  {
    if v == Maths.Value() then Some(Maths)
    else if v == Biology.Value() then Some(Biology)
    else if v == Commerce10.Value() then Some(Commerce10)
    else if v == Arts10.Value() then Some(Arts10)
    else None
  }

  function Stream12Of(v: string): (r: Option<SubjectStream12>)
    ensures r.Some? ==> r.value.Value() == v
  {
    if v == PCM.Value() then Some(PCM)
    else if v == PCB.Value() then Some(PCB)
    else if v == Commerce12.Value() then Some(Commerce12)
    else if v == Arts12.Value() then Some(Arts12)
    else None
  }

  /** Distinct string values: reading a stream's value back yields that stream. */
  lemma Stream10RoundTrip(s: SubjectStream10)
    ensures Stream10Of(s.Value()) == Some(s)
  {
  }

  lemma Stream12RoundTrip(s: SubjectStream12)
    ensures Stream12Of(s.Value()) == Some(s)
  {
  }
}
