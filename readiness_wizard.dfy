/** The AI-readiness wizard (pages/AIConfigurator.tsx).

    Steps: 0 is the profile form, 1 to 6 are the six questions, 7 is the
    signup gate and 8 the result dashboard. The page makes one attempt at a
    generated assessment; when the call or the parse fails it builds a canned
    one, so a result is always produced. With a session the result is saved
    at once and the dashboard shown; without one the result is held until the
    visitor signs up, and saved then. */
module ReadinessWizard {
  import opened Outcomes
  import opened Strings

  datatype Profile = Profile(name: string, email: string, company: string)

  /** The answers to the six questions, indexed by their steps 1 to 6;
      "" means not answered yet. */
  datatype Answers = Answers(industry: string, size: string, dataSource: string,
                             goal: string, maturity: string, painPoint: string)
  {
    /** The answer held for question step k; "" for any other step. */
    function Answer(k: int): string
    {
      if k == 1 then industry
      else if k == 2 then size
      else if k == 3 then dataSource
      else if k == 4 then goal
      else if k == 5 then maturity
      else if k == 6 then painPoint
      else ""
    }

    /** The answers with question step k's answer set to v. */
    function With(k: int, v: string): (r: Answers)
      requires 1 <= k <= 6
      ensures r.Answer(k) == v
      ensures forall j :: j != k ==> r.Answer(j) == Answer(j)
    {
      if k == 1 then this.(industry := v)
      else if k == 2 then this.(size := v)
      else if k == 3 then this.(dataSource := v)
      else if k == 4 then this.(goal := v)
      else if k == 5 then this.(maturity := v)
      else this.(painPoint := v)
    }
  }

  const NoAnswers: Answers := Answers("", "", "", "", "", "")

  const IndustryOptions: seq<string> := ["Manufacturing", "Services", "Retail", "Healthcare", "Legal", "Construction"]
  const SizeOptions: seq<string> := ["1-10 (Micro)", "11-50 (Small)", "51-200 (Medium)", "200+ (Large)"]
  const DataSourceOptions: seq<string> := ["Spreadsheets/Paper", "SaaS Cloud Apps", "Central Database"]
  const GoalOptions: seq<string> := ["Time Savings", "Revenue Growth", "Cost Reduction"]
  const MaturityOptions: seq<string> := ["Low", "Medium", "High"]

  /** The option buttons of question steps 1 to 5; step 6 is free text. */
  function Options(k: int): (opts: seq<string>)
    ensures 1 <= k <= 5 <==> opts != []
    ensures forall o <- opts :: o != ""
  {
    if k == 1 then IndustryOptions
    else if k == 2 then SizeOptions
    else if k == 3 then DataSourceOptions
    else if k == 4 then GoalOptions
    else if k == 5 then MaturityOptions
    else []
  }

  /** The `disabled` expression of the shared Next button. */
  function NextDisabled(step: int, a: Answers): (disabled: bool)
    ensures disabled <==> 1 <= step <= 6 && a.Answer(step) == ""
  {
    || (step == 1 && a.industry == "")
    || (step == 2 && a.size == "")
    || (step == 3 && a.dataSource == "")
    || (step == 4 && a.goal == "")
    || (step == 5 && a.maturity == "")
    || (step == 6 && a.painPoint == "")
  }

  datatype UseCase = UseCase(title: string, impact: string, difficulty: string, roi: string)

  /** The parsed body of the generative model's reply. */
  datatype Assessment = Assessment(readinessScore: int, analysis: string, useCases: seq<UseCase>)

  /** Where a held result came from; the page itself keeps no such tag. */
  datatype Origin = Generated | Canned

  /** The fallback score, `Math.floor(Math.random() * (85 - 45 + 1) + 45)`,
      for `roll` the value of `Math.random()`. */
  function CannedScore(roll: real): (score: int)
    requires 0.0 <= roll < 1.0
    ensures 45 <= score <= 85
  {
    (roll * (85 - 45 + 1) as real + 45.0).Floor
  }

  /** The fixed pieces of the fallback summary and use cases. */
  const AnalysisOpening: string := "We analyzed your "
  const AnalysisAfterIndustry: string := " operations and identified significant bottlenecks in your "
  const AnalysisAfterDataSource: string := " data workflows. Your goal to "
  const AnalysisClosing: string := " is achievable but requires immediate infrastructure visualization."
  const PipelineImpact: string := "Eliminates manual entry errors and saves 12+ hours/week."
  const AgentImpact: string := "Instant response to common inquiries, freeing up staff."
  const DashboardImpact: string := "Forecast demand using your historical data."
  const PipelinePrefix: string := "Automated "
  const PipelineSuffix: string := " Data Pipeline"
  const AgentCase: UseCase := UseCase("Customer Service Agent", AgentImpact, "Low", "150%")
  const DashboardCase: UseCase := UseCase("Predictive Analytics Dashboard", DashboardImpact, "High", "500%")

  /** The fallback summary, which repeats three of the answers. */
  function CannedAnalysis(a: Answers): (text: string)
    ensures Contains(text, a.industry) && Contains(text, a.dataSource) && Contains(text, a.goal)
  {
    MentionsEach(AnalysisOpening, a.industry, AnalysisAfterIndustry, a.dataSource,
                 AnalysisAfterDataSource, a.goal, AnalysisClosing);
    AnalysisOpening + a.industry + AnalysisAfterIndustry + a.dataSource
      + AnalysisAfterDataSource + a.goal + AnalysisClosing
  }

  /** The three fallback use cases; the first is named after the data source. */
  function CannedUseCases(a: Answers): (cases: seq<UseCase>)
    ensures |cases| == 3
    ensures forall u <- cases :: u.title != "" && u.impact != "" && u.difficulty != "" && u.roi != ""
    ensures Contains(cases[0].title, a.dataSource)
  {
    ContainsMiddle(PipelinePrefix, a.dataSource, PipelineSuffix);
    [UseCase(PipelinePrefix + a.dataSource + PipelineSuffix, PipelineImpact, "Medium", "300%"), AgentCase, DashboardCase]
  }

  /** The fallback assessment; `roll` is the value of `Math.random()`. */
  function CannedAssessment(a: Answers, roll: real): (r: Assessment)
    requires 0.0 <= roll < 1.0
    ensures 45 <= r.readinessScore <= 85
    ensures |r.useCases| == 3
  {
    Assessment(CannedScore(roll), CannedAnalysis(a), CannedUseCases(a))
  }

  /** The single attempt at a generated assessment: the reply's text with its
      code fences stripped, given to `JSON.parse`. None when the call failed
      (`reply` is None) or the parse failed. */
  function GeneratedAssessment(reply: Option<string>, parse: string -> Option<Assessment>): (g: Option<Assessment>)
    ensures reply.None? ==> g.None?
    ensures reply.Some? && !Contains(reply.value, Fence) ==> g == parse(reply.value)
  {
    match reply
    case None => None
    case Some(text) =>
      StripFencesIdempotent(text);
      parse(StripFences(text))
  }

  /** The result the page holds after an assessment: the generated one when
      there is one, the canned one otherwise. */
  function Synthesize(a: Answers, reply: Option<string>, parse: string -> Option<Assessment>, roll: real): (r: Assessment)
    requires 0.0 <= roll < 1.0
    ensures GeneratedAssessment(reply, parse).Some? ==> r == GeneratedAssessment(reply, parse).value
    ensures GeneratedAssessment(reply, parse).None? ==>
              45 <= r.readinessScore <= 85 && |r.useCases| == 3
  {
    match GeneratedAssessment(reply, parse)
    case Some(g) => g
    case None => CannedAssessment(a, roll)
  }

  /** A failed call always falls back to the canned assessment, whatever the
      parser would have done. */
  lemma FailedCallFallsBack(a: Answers, parse: string -> Option<Assessment>, roll: real)
    requires 0.0 <= roll < 1.0
    ensures Synthesize(a, None, parse, roll) == CannedAssessment(a, roll)
    ensures 45 <= Synthesize(a, None, parse, roll).readinessScore <= 85
  {
  }

  /** The bottleneck tile: text over 20 characters is cut to 18 and "..." added. */
  function BottleneckLabel(painPoint: string): (shown: string)
    ensures |shown| <= 21 && |shown| <= |painPoint|
    ensures |painPoint| <= 20 ==> shown == painPoint
    ensures |painPoint| > 20 ==> |shown| == 21 && shown[..18] == painPoint[..18] && shown[18..] == "..."
  {
    if |painPoint| > 20 then painPoint[..18] + "..." else painPoint
  }

  /** The badge on the score card. */
  function ScoreLabel(score: int): (shown: string)
    ensures shown == "Ready to Scale" <==> score > 75
    ensures shown == "Ready to Scale" || shown == "Foundation Phase"
  {
    if score > 75 then "Ready to Scale" else "Foundation Phase"
  }

  /** `Math.min(step - 1, 6)`, the bar of the six-bar step indicator drawn as current. */
  function IndicatorIndex(step: int): (i: int)
    ensures i <= step - 1 && i <= 6
    ensures i == step - 1 || i == 6
  {
    if step - 1 < 6 then step - 1 else 6
  }

  /** The inputs stored beside a saved result. */
  datatype Inputs = Inputs(answers: Answers, profile: Profile)

  /** One row sent to the `audits` table; `analysis` stands for the
      JSON-encoded result together with its inputs. */
  datatype AuditInsert = AuditInsert(userId: string, industry: string, companySize: string, painPoint: string,
                                     readinessScore: int, analysis: Assessment, inputs: Inputs)

  function AuditRow(userId: string, a: Answers, p: Profile, report: Assessment): (row: AuditInsert)
    ensures row.userId == userId && row.analysis == report && row.readinessScore == report.readinessScore
    ensures row.inputs == Inputs(a, p)
    ensures row.industry == a.industry && row.companySize == a.size && row.painPoint == a.painPoint
  {
    AuditInsert(userId, a.industry, a.size, a.painPoint, report.readinessScore, report, Inputs(a, p))
  }

  /** `user.email || ''` */
  function EmailOrEmpty(email: Option<string>): (e: string)
    ensures e == "" <==> email.None? || email == Some("")
    ensures email.Some? ==> e == email.value
  {
    match email
    case Some(e) => e
    case None => ""
  }

  const CriticalErrorAlert: string := "Something went wrong. Please try again."

  /** The body of the inner `try` of `handleAssessment`: strip the reply's
      fences and parse it; on a failed call or a failed parse, the canned
      assessment. `generated` tells which of the two was used. */
  method ProduceAssessment(a: Answers, reply: Option<string>, parse: string -> Option<Assessment>, roll: real)
    returns (data: Assessment, generated: bool)
    requires 0.0 <= roll < 1.0
    ensures data == Synthesize(a, reply, parse, roll)
    ensures generated <==> GeneratedAssessment(reply, parse).Some?
  {
    var parsed: Option<Assessment> := None;
    if reply.Some? {
      var cleanJson := StripFences(reply.value);
      parsed := parse(cleanJson);
    }
    if parsed.Some? {
      data, generated := parsed.value, true;
    } else {
      data, generated := CannedAssessment(a, roll), false;
    }
  }

  /** The page's state. `user` is the session seen when the page is opened;
      `alerts` and `auditInserts` record what the page has shown with
      `alert` and what it has sent to the `audits` table. */
  class AIConfigurator {
    const user: Option<User>
    var step: int
    var profile: Profile
    var answers: Answers
    var loading: bool
    var result: Option<Assessment>
    var alerts: seq<string>
    var auditInserts: seq<AuditInsert>
    ghost var origin: Option<Origin>

    /** The page's invariant between events: no result before step 7, a
        result on steps 7 and 8, and at most one saved row, which is the held
        result and, with a session, belongs to the session's user. */
    ghost predicate Valid()
      reads this
    {
      && 0 <= step <= 8
      && !loading
      && (result.None? ==> step <= 6 && auditInserts == [] && origin.None?)
      && (result.Some? ==> (step == 7 || step == 8) && origin.Some?)
      && (step == 7 ==> user.None? && auditInserts == [])
      && |auditInserts| <= 1
      && (auditInserts != [] ==> result.Some? && auditInserts[0].analysis == result.value)
      && (user.Some? && result.Some? ==>
            step == 8 && |auditInserts| == 1 && auditInserts[0].userId == user.value.id)
    }

    /** The initial state, then the pre-fill effect for a signed-in user. */
    constructor (user: Option<User>)
      ensures Valid() && this.user == user
      ensures answers == NoAnswers && result.None? && origin.None?
      ensures alerts == [] && auditInserts == []
      ensures user.Some? ==> profile == Profile("Member", EmailOrEmpty(user.value.email), "My Company") && step == 1
      ensures user.None? ==> profile == Profile("", "", "") && step == 0
    {
      this.user := user;
      step := 0;
      profile := Profile("", "", "");
      answers := NoAnswers;
      loading := false;
      result := None;
      alerts := [];
      auditInserts := [];
      origin := None;
      if user.Some? {
        profile := Profile("Member", EmailOrEmpty(user.value.email), "My Company");
        step := 1;
      }
    }

    /** Back and Next are rendered only while idle, before a result, after
        step 0; on a page in a valid state that is exactly the six question
        steps. */
    predicate NavShown()
      reads this
      ensures NavShown() ==> !loading && step >= 1
      ensures Valid() ==> (NavShown() <==> 1 <= step <= 6)
    {
      !loading && result.None? && step > 0
    }

    /** The three profile inputs, rendered on step 0. */
    method EditName(v: string)
      requires Valid()
      modifies this`profile
      ensures Valid()
      ensures old(step) == 0 ==> profile == old(profile).(name := v)
      ensures old(step) != 0 ==> profile == old(profile)
    {
      if step == 0 {
        profile := profile.(name := v);
      }
    }

    method EditEmail(v: string)
      requires Valid()
      modifies this`profile
      ensures Valid()
      ensures old(step) == 0 ==> profile == old(profile).(email := v)
      ensures old(step) != 0 ==> profile == old(profile)
    {
      if step == 0 {
        profile := profile.(email := v);
      }
    }

    method EditCompany(v: string)
      requires Valid()
      modifies this`profile
      ensures Valid()
      ensures old(step) == 0 ==> profile == old(profile).(company := v)
      ensures old(step) != 0 ==> profile == old(profile)
    {
      if step == 0 {
        profile := profile.(company := v);
      }
    }

    /** "Start Analysis": leaves step 0 only with a name and an email. */
    method PressStart()
      requires Valid()
      modifies this`step
      ensures Valid()
      ensures old(step) == 0 && profile.name != "" && profile.email != "" ==> step == 1
      ensures !(old(step) == 0 && profile.name != "" && profile.email != "") ==> step == old(step)
    {
      if step == 0 && profile.name != "" && profile.email != "" {
        step := 1;
      }
    }

    /** An option button of question steps 1 to 5: sets that step's answer
        and moves to the next step. */
    method ChooseOption(choice: string)
      requires Valid()
      modifies this`answers, this`step
      ensures Valid()
      ensures old(1 <= step <= 5 && choice in Options(step)) ==>
                answers == old(answers).With(old(step), choice) && step == old(step) + 1
                && !NextDisabled(old(step), answers)
      ensures !old(1 <= step <= 5 && choice in Options(step)) ==> unchanged(this)
    {
      if 1 <= step <= 5 && choice in Options(step) {
        answers := answers.With(step, choice);
        step := step + 1;
      }
    }

    /** The free-text answer of step 6. */
    method EditPainPoint(v: string)
      requires Valid()
      modifies this`answers
      ensures Valid()
      ensures old(step) == 6 ==> answers == old(answers).With(6, v)
      ensures old(step) != 6 ==> answers == old(answers)
    {
      if step == 6 {
        answers := answers.With(6, v);
      }
    }

    /** Back: one step down, only while the button is rendered. */
    method PressBack()
      requires Valid()
      modifies this`step
      ensures Valid()
      ensures old(NavShown()) ==> step == old(step) - 1 && step >= 0
      ensures !old(NavShown()) ==> step == old(step)
    {
      if NavShown() {
        step := step - 1;
      }
    }

    /** What an assessment leaves behind: loading off; on a failure outside
        the inner try (the client could not be built) an alert and nothing
        else; otherwise the synthesized result held, saved and step 8 with a
        session, step 7 without. */
    twostate predicate Assessed(clientOk: bool, reply: Option<string>, parse: string -> Option<Assessment>, roll: real)
      requires 0.0 <= roll < 1.0
      reads this
    {
      && !loading
      && (!clientOk ==>
            && result == old(result) && step == old(step) && origin == old(origin)
            && auditInserts == old(auditInserts) && alerts == old(alerts) + [CriticalErrorAlert])
      && (clientOk ==>
            && result == Some(Synthesize(answers, reply, parse, roll))
            && origin == Some(if GeneratedAssessment(reply, parse).Some? then Generated else Canned)
            && alerts == old(alerts)
            && (user.Some? ==>
                  step == 8 && auditInserts == old(auditInserts) + [AuditRow(user.value.id, answers, profile, result.value)])
            && (user.None? ==> step == 7 && auditInserts == old(auditInserts)))
    }

    /** `saveToDb`: a no-op without a session; otherwise one insert request,
        whose failure is swallowed. */
    method SaveToDb(report: Assessment)
      modifies this`auditInserts
      ensures user.None? ==> auditInserts == old(auditInserts)
      ensures user.Some? ==> auditInserts == old(auditInserts) + [AuditRow(user.value.id, answers, profile, report)]
    {
      if user.None? {
        return;
      }
      auditInserts := auditInserts + [AuditRow(user.value.id, answers, profile, report)];
    }

    /** The end of the inner `try`: the result is held, saved when there is
        a session, and the dashboard or the signup gate shown. */
    method HoldReport(data: Assessment, generated: bool)
      requires auditInserts == []
      modifies this`result, this`step, this`auditInserts, this`origin
      ensures result == Some(data) && origin == Some(if generated then Generated else Canned)
      ensures user.Some? ==> step == 8 && auditInserts == [AuditRow(user.value.id, answers, profile, data)]
      ensures user.None? ==> step == 7 && auditInserts == []
    {
      origin := Some(if generated then Generated else Canned);
      result := Some(data);
      if user.Some? {
        SaveToDb(data);
        step := 8;
      } else {
        step := 7;
      }
    }

    /** `handleAssessment`. `clientOk` says whether constructing the client
        succeeded, `reply` is the reply's text or None when the call threw,
        `parse` stands for `JSON.parse` and `roll` for `Math.random()`. */
    method HandleAssessment(clientOk: bool, reply: Option<string>, parse: string -> Option<Assessment>, roll: real)
      requires 0.0 <= roll < 1.0
      requires Valid() && step == 6
      modifies this`loading, this`result, this`step, this`alerts, this`auditInserts, this`origin
      ensures Valid()
      ensures Assessed(clientOk, reply, parse, roll)
    {
      assert result.None? && auditInserts == [];
      loading := true;
      if !clientOk {
        alerts := alerts + [CriticalErrorAlert];
      } else {
        var data, generated := ProduceAssessment(answers, reply, parse, roll);
        HoldReport(data, generated);
      }
      loading := false;
    }

    /** The shared Next button: disabled while the current answer is empty;
        on steps 1 to 5 it moves on, on step 6 it runs the assessment. */
    method PressNext(clientOk: bool, reply: Option<string>, parse: string -> Option<Assessment>, roll: real)
      requires Valid() && 0.0 <= roll < 1.0
      modifies this`loading, this`result, this`step, this`alerts, this`auditInserts, this`origin
      ensures Valid()
      ensures old(!NavShown() || NextDisabled(step, answers)) ==> unchanged(this)
      ensures old(NavShown() && !NextDisabled(step, answers)) && old(step) != 6 ==>
                step == old(step) + 1 && step <= 6
                && unchanged(this`loading, this`result, this`alerts, this`auditInserts, this`origin)
      ensures old(NavShown() && !NextDisabled(step, answers)) && old(step) == 6 ==>
                Assessed(clientOk, reply, parse, roll)
    {
      if NavShown() && !NextDisabled(step, answers) {
        if step == 6 {
          HandleAssessment(clientOk, reply, parse, roll);
        } else {
          step := step + 1;
        }
      }
    }

    /** "Generate Audit Report" on step 6, disabled without an answer or while loading. */
    method PressGenerate(clientOk: bool, reply: Option<string>, parse: string -> Option<Assessment>, roll: real)
      requires Valid() && 0.0 <= roll < 1.0
      modifies this`loading, this`result, this`step, this`alerts, this`auditInserts, this`origin
      ensures Valid()
      ensures old(step == 6 && answers.painPoint != "" && !loading) ==> Assessed(clientOk, reply, parse, roll)
      ensures !old(step == 6 && answers.painPoint != "" && !loading) ==> unchanged(this)
    {
      if step == 6 && answers.painPoint != "" && !loading {
        HandleAssessment(clientOk, reply, parse, roll);
      }
    }

    /** `handleSignup` on the signup gate: an auth error, and an exception
        from the call, which the surrounding `catch` handles alike, is
        alerted and the step kept; on success the held result is saved for the returned user,
        if there are both, and the dashboard shown. */
    method HandleSignup(outcome: AuthOutcome)
      modifies this`loading, this`step, this`alerts, this`auditInserts
      ensures !loading
      ensures !outcome.AuthOk? ==>
                step == old(step) && auditInserts == old(auditInserts) && alerts == old(alerts) + [outcome.message]
      ensures outcome.AuthOk? ==>
                && step == 8 && alerts == old(alerts)
                && auditInserts == old(auditInserts) +
                     (if result.Some? && outcome.user.Some?
                      then [AuditRow(outcome.user.value.id, answers, profile, result.value)] else [])
    {
      loading := true;
      match outcome {
        case AuthError(message) =>
          alerts := alerts + [message];
        case AuthThrew(message) =>
          alerts := alerts + [message];
        case AuthOk(newUser) =>
          if result.Some? && newUser.Some? {
            auditInserts := auditInserts + [AuditRow(newUser.value.id, answers, profile, result.value)];
          }
          step := 8;
      }
      loading := false;
    }

    /** The signup form, rendered on step 7 only. */
    method SubmitSignup(outcome: AuthOutcome)
      requires Valid()
      modifies this`loading, this`step, this`alerts, this`auditInserts
      ensures Valid()
      ensures old(step) == 7 ==>
                && (!outcome.AuthOk? ==> step == 7 && auditInserts == [] && alerts == old(alerts) + [outcome.message])
                && (outcome.AuthOk? ==>
                      && step == 8 && alerts == old(alerts)
                      && auditInserts == (if outcome.user.Some?
                                          then [AuditRow(outcome.user.value.id, answers, profile, result.value)] else []))
      ensures old(step) != 7 ==> unchanged(this)
    {
      if step == 7 {
        HandleSignup(outcome);
      }
    }
  }

  /** Questions 1 to 6 answered through the buttons and the text area. */
  method AnswerQuestions(page: AIConfigurator)
    requires page.Valid() && page.step == 1 && page.result.None?
    modifies page
    ensures page.Valid() && page.step == 6 && page.result.None? && page.NavShown()
    ensures page.answers.industry == IndustryOptions[2] && !NextDisabled(6, page.answers)
  {
    page.ChooseOption(IndustryOptions[2]);
    page.ChooseOption(SizeOptions[1]);
    page.ChooseOption(DataSourceOptions[1]);
    page.ChooseOption(GoalOptions[0]);
    assert page.step == 5 && page.answers.industry == IndustryOptions[2];
    page.ChooseOption(MaturityOptions[0]);
    page.EditPainPoint("Orders are typed in twice");
  }

  /** A visitor without a session fills in the profile, answers everything
      and reaches the signup gate with a result held and nothing saved. */
  method ReachSignupGate(reply: Option<string>, parse: string -> Option<Assessment>, roll: real)
    returns (page: AIConfigurator)
    requires 0.0 <= roll < 1.0
    ensures fresh(page) && page.Valid() && page.user.None?
    ensures page.step == 7 && page.result.Some? && page.auditInserts == []
    ensures page.answers.industry == IndustryOptions[2]
  {
    page := new AIConfigurator(None);
    page.EditName("Ada");
    page.EditEmail("ada@example.com");
    page.PressStart();
    AnswerQuestions(page);
    page.PressNext(true, reply, parse, roll);
  }

  /** After signing up at the gate the visitor gets exactly one saved row,
      for the new account; a second submit is not possible any more. */
  method DeferredSaveScenario(reply: Option<string>, parse: string -> Option<Assessment>, roll: real, newUser: User)
    returns (shownStep: int, saved: seq<AuditInsert>)
    requires 0.0 <= roll < 1.0
    ensures shownStep == 8
    ensures |saved| == 1 && saved[0].userId == newUser.id && saved[0].inputs.answers.industry == IndustryOptions[2]
  {
    var page := ReachSignupGate(reply, parse, roll);
    page.SubmitSignup(AuthOk(Some(newUser)));
    page.SubmitSignup(AuthOk(Some(newUser)));
    shownStep, saved := page.step, page.auditInserts;
  }

  /** With a session the questions start at step 1 and the result is saved
      once, for the session's user, before the dashboard is shown, even when
      the service is down. */
  method SessionScenario(parse: string -> Option<Assessment>, roll: real, member: User)
    returns (shownStep: int, saved: seq<AuditInsert>, held: Option<Assessment>)
    requires 0.0 <= roll < 1.0
    ensures shownStep == 8 && held.Some? && 45 <= held.value.readinessScore <= 85
    ensures |saved| == 1 && saved[0].userId == member.id && saved[0].analysis == held.value
  {
    var page := new AIConfigurator(Some(member));
    page.ChooseOption(IndustryOptions[4]);
    page.ChooseOption(SizeOptions[0]);
    page.ChooseOption(DataSourceOptions[0]);
    page.ChooseOption(GoalOptions[2]);
    page.ChooseOption(MaturityOptions[1]);
    page.EditPainPoint("Files are on paper");
    page.PressGenerate(true, None, parse, roll);
    shownStep, saved, held := page.step, page.auditInserts, page.result;
  }
}
