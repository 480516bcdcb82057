/** Decisions of the action executor (sync/actions.py): who may run what, what
    a stage's rows prove afterwards, and what an open-pr answer means. */
module Actions {
  import opened Common
  import opened Ledger
  import opened Workflow

  /** `params.llm` of a listed action. */
  datatype LlmParam = Absent | Malformed | Names(provider: Provider, model: string)

  /** The fields of a listed action that decide what it may do. They are
      sonicgrid's and do not change for an action id. */
  datatype Listed = Listed(
    kind: Kind, report: Rid, llm: LlmParam, modeValid: bool, repoWrite: bool, cloudSpend: bool)

  /** What authorization reads besides the action: the project's resolved
      models, whether the requester is allowlisted, and whether the latest
      localization is completed and current. */
  datatype Context = Context(triagePin: Pin, localizePin: Pin, fixPin: Pin, allowlisted: bool, freshLocalization: bool)

  const MODEL_MAX := 200
  const PR_STEP_MAX_ATTEMPTS := 3

  predicate IsPaid(pin: Pin) {
    !pin.provider.Ollama?
  }

  predicate Blank(text: string) {
    forall c <- text :: c in " \t\n\r"
  }

  /** Fail closed: Anthropic only, and a non-blank model of bounded length. */
  function RequesterPin(p: LlmParam): Option<Pin> {
    if p.Names? && p.provider.Anthropic? && !Blank(p.model) && |p.model| <= MODEL_MAX
    then Some(Pin(p.provider, p.model)) else None
  }

  datatype Authorization =
    | Refuse(result: Result)
    | Grant(pin: Option<Pin>, local: Option<LocalPins>, noAutoRetry: bool, requesterKey: bool)

  predicate LocalAllowed(status: Status) {
    status.Triaged? || status.ClarificationNeeded?
  }

  predicate CloudAllowed(status: Status, ctx: Context) {
    status.Triaged? && ctx.freshLocalization
  }

  function AuthorizeRequester(a: Listed, ctx: Context, status: Status): Authorization {
    var refuse := (m: Message) => Refuse(StepResult(a.kind, Refused, m));
    if a.llm.Absent? then refuse(NotPermitted(Legacy))
    else if RequesterPin(a.llm).None? then refuse(NotPermitted(NoPin))
    else if a.kind.FixAndOpenPr? && !a.repoWrite then refuse(NotPermitted(Consent))
    else if a.kind.FixAndOpenPr? && !a.cloudSpend then refuse(NotPermitted(Consent))
    else if !CloudAllowed(status, ctx) then refuse(NotPermitted(Precondition))
    else Grant(RequesterPin(a.llm), None, true, true)
  }

  function AuthorizePaid(userKeys: bool, a: Listed, ctx: Context, status: Status): Authorization {
    var refuse := (m: Message) => Refuse(StepResult(a.kind, Refused, m));
    var paid := IsPaid(ctx.fixPin);
    if userKeys then AuthorizeRequester(a, ctx, status)
    else if !a.llm.Absent? then refuse(NotPermitted(UserKeysOff))
    else if a.kind.FixAndOpenPr? && !a.repoWrite then refuse(NotPermitted(Consent))
    else if a.kind.FixAndOpenPr? && paid && !a.cloudSpend then refuse(NotPermitted(Consent))
    else if (a.kind.AnalyzeCloud? || paid) && !ctx.allowlisted then refuse(NotPermitted(Allowlist))
    else if !CloudAllowed(status, ctx) then refuse(NotPermitted(Precondition))
    else Grant(Some(ctx.fixPin), None, a.kind.AnalyzeCloud? || paid, false)
  }

  /** Decided once, when the claim is answered. */
  function Authorize(userKeys: bool, a: Listed, ctx: Context, status: Status): Authorization {
    var refuse := (m: Message) => Refuse(StepResult(a.kind, Refused, m));
    match a.kind
    case OtherKind => refuse(UnknownKind)
    case AnalyzeLocal =>
      if IsPaid(ctx.triagePin) || IsPaid(ctx.localizePin) then refuse(NotPermitted(Precondition))
      else if !LocalAllowed(status) then refuse(NotPermitted(Precondition))
      else Grant(None, Some(LocalPins(ctx.triagePin, ctx.localizePin)), false, false)
    case AnalyzeCloud => AuthorizePaid(userKeys, a, ctx, status)
    case FixAndOpenPr => AuthorizePaid(userKeys, a, ctx, status)
    case OpenPr =>
      if !a.repoWrite then refuse(NotPermitted(Consent)) else Grant(None, None, false, false)
    case SetMode =>
      if !a.modeValid then refuse(NotPermitted(Precondition)) else Grant(None, None, false, false)
    case Reopen =>
      if !status.Closed? then refuse(NotPermitted(Precondition)) else Grant(None, None, false, false)
    case Close =>
      if !PatchAccepts(status, Closed) then refuse(NotPermitted(Precondition)) else Grant(None, None, false, false)
  }

  /** The credential endpoint's answer, or none at all. */
  datatype Credential = Lost | Answer(status: int, code: CredentialCode, provider: Provider, hasKey: bool)
  datatype CredentialCode = AlreadyReleased | NoKeySaved | OtherCode

  /** The key's use (None), or the action's result when there is no key. */
  function CredentialOutcome(row: Row, c: Credential): Option<Result> {
    if c.Lost? then Some(StepResult(row.kind, Failed, CredentialFailed))
    else if c.status == 200 then
      if c.provider.Anthropic? && row.pin.Some? && c.provider == row.pin.value.provider && c.hasKey
      then None
      else Some(StepResult(row.kind, Failed, CredentialInvalid))
    else if c.status == 409 && c.code.AlreadyReleased? then
      Some(StepResult(row.kind, Failed, CredentialUsed))
    else if c.status == 409 && c.code.NoKeySaved? then
      Some(StepResult(row.kind, Refused, CredentialRefused))
    else if c.status == 403 then
      Some(StepResult(row.kind, Refused, CredentialRefused))
    else if c.status == 404 || c.status == 409 then
      Some(StepResult(row.kind, Refused, CredentialRefused))
    else Some(StepResult(row.kind, Failed, CredentialFailed))
  }

  /** One finished run of the fix stage (`FixOutcome`). */
  datatype FixOutcome = Proposed(id: Pid) | FixFailed | AlreadyProposed(id: Pid) | Deferred | NotClaimed

  function MapFix(kind: Kind, o: FixOutcome): StageResult {
    match o
    case Proposed(id) =>
      if kind.FixAndOpenPr? then FixMade(id) else Finish(Result(Done, FixMessage(FixOk(id)), NoSteps, None))
    case FixFailed => Finish(StepResult(kind, Failed, FixMessage(FixBroke)))
    case AlreadyProposed(id) => Finish(StepResult(kind, Refused, FixMessage(FixExists(id))))
    case Deferred => Finish(StepResult(kind, Refused, FixMessage(FixDeferred)))
    case NotClaimed => Finish(StepResult(kind, Refused, FixMessage(FixBusy)))
  }

  datatype LocalOutcome = Completed | LocalFailed | LocalNotClaimed | NoRepo | AlreadyFresh | TriageOnly

  function MapLocal(o: LocalOutcome): Result {
    match o
    case Completed => Result(Done, LocalAnalysis(LocalDone), NoSteps, None)
    case LocalFailed => Result(Failed, LocalAnalysis(LocalBroke), NoSteps, None)
    case TriageOnly => Result(Failed, LocalAnalysis(NeedsClarification), NoSteps, None)
    case AlreadyFresh => Result(Refused, LocalAnalysis(Fresh), NoSteps, None)
    case NoRepo => Result(Refused, LocalAnalysis(NotCloned), NoSteps, None)
    case LocalNotClaimed => Result(Refused, LocalAnalysis(Busy), NoSteps, None)
  }

  /** Rows tagged with one action's id, newest first. */
  datatype Stage = TriageStage | LocalizationStage | FixStage
  datatype StageStatus = StageRunning | StageCompleted | StageFailed
  datatype StageRow = StageRow(stage: Stage, status: StageStatus, interrupted: bool)
  datatype Made = Made(rows: seq<StageRow>, proposals: seq<Pid>)

  /** What this action's own finished rows show; None when they show nothing
      finished. A row cut off by a restart is no outcome. */
  function Evidence(kind: Kind, made: Made): Option<StageResult> {
    match kind
    case AnalyzeLocal =>
      if exists r <- made.rows :: !r.interrupted && r.stage.LocalizationStage? && r.status.StageCompleted?
      then Some(Finish(MapLocal(Completed)))
      else if exists r <- made.rows :: !r.interrupted && r.status.StageFailed?
      then Some(Finish(MapLocal(LocalFailed)))
      else None
    case AnalyzeCloud => FixEvidence(kind, made)
    case FixAndOpenPr => FixEvidence(kind, made)
    case _ => None
  }

  function FixEvidence(kind: Kind, made: Made): Option<StageResult> {
    if made.proposals != [] then Some(MapFix(kind, Proposed(made.proposals[0])))
    else if exists r <- made.rows :: !r.interrupted && r.stage.FixStage? && r.status.StageFailed?
    then Some(MapFix(kind, FixFailed))
    else None
  }

  /** Startup marks a dead process's `running` rows failed and interrupted. */
  function Interrupt(made: Made): Made {
    made.(rows := seq(|made.rows|, i requires 0 <= i < |made.rows| =>
      if made.rows[i].status.StageRunning? then made.rows[i].(status := StageFailed, interrupted := true)
      else made.rows[i]))
  }

  function UnconfirmedFailure(kind: Kind): Result {
    StepResult(kind, Failed, Unconfirmed)
  }

  /** What `open_pull_request` did for one attempt. `Broken` is the 409 body
      it returns for another proposal's PR: the caller reads a key that body
      lacks, so the attempt ends in an exception outside its handlers. */
  datatype PrAnswer =
    | Opened(url: string, created: bool)
    | PrRefused(code: string)
    | InProgress
    | Trouble(detail: string)
    | Broken

  /** One attempt's outcome; `state` None = not an outcome yet. */
  datatype PrStep = PrStep(state: Option<Outcome>, detail: string, ref: Option<string>, attempts: nat)

  function PrOutcome(answer: PrAnswer, attempts: nat): PrStep
    requires !answer.Broken?
  {
    match answer
    case Opened(url, _) => PrStep(Some(Done), "", Some(url), attempts)
    case PrRefused(code) => PrStep(Some(Refused), code, None, attempts)
    case InProgress => PrStep(None, "", None, attempts)
    case Trouble(detail) =>
      if attempts + 1 < PR_STEP_MAX_ATTEMPTS then PrStep(None, "", None, attempts + 1)
      else PrStep(Some(Failed), detail, None, attempts + 1)
  }

  /** The action's result for a decided PR step. */
  function PrResult(row: Row, step: PrStep): Result
    requires step.state.Some?
  {
    var o := step.state.value;
    var compound := row.kind.FixAndOpenPr?;
    var fix := if row.steps.NoSteps? then StepDone else row.steps.fix;
    Result(o, PrMessage(compound, o, step.detail), if compound then StepPair(fix, AsStep(o)) else NoSteps, step.ref)
  }
}
