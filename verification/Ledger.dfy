/** The triage action ledger: its rows, the outcomes written to them, and the
    conditional writes every caller goes through (db.py, sync/triage_sync.py). */
module Ledger {
  import opened Common

  type Id = string   // a sonicgrid action
  type Rid = string  // a bug report
  type Pid = string  // a fix proposal

  datatype Kind = AnalyzeLocal | AnalyzeCloud | FixAndOpenPr | OpenPr | SetMode | Close | Reopen | OtherKind

  predicate Paid(k: Kind) {
    k.AnalyzeCloud? || k.FixAndOpenPr?
  }

  predicate Llm(k: Kind) {
    k.AnalyzeLocal? || Paid(k)
  }

  datatype Phase = Reserved | Intent | Dispatched | FixDone | Finished

  datatype Outcome = Done | Failed | Refused

  datatype StepState = StepDone | StepFailed | StepRefused | StepSkipped

  /** `NoSteps`: not a compound, or its fix step is still open. */
  datatype Steps = NoSteps | FixStep(fix: StepState) | StepPair(fix: StepState, pr: StepState)

  datatype Provider = Anthropic | Ollama | OtherProvider(name: string)

  datatype Pin = Pin(provider: Provider, model: string)

  /** The two models `analyze_local` is pinned to. */
  datatype LocalPins = LocalPins(triage: Pin, localize: Pin)

  /** The outcome messages, by what they say. */
  datatype Message =
    | NoMessage
    | UnknownKind
    | NotPermitted(why: Refusal)
    | TimedOutMessage
    | Unconfirmed
    | Unexpected
    | CredentialFailed
    | CredentialInvalid
    | CredentialUsed
    | CredentialRefused
    | LocalAnalysis(ran: LocalNote)
    | FixMessage(note: FixNote)
    | PrMessage(fixProposed: bool, outcome: Outcome, detail: string)
    | Reopened
    | ClosedNow
    | ModeSet
    | InlineFailed
    | RacedUpdate

  datatype Refusal = Consent | Allowlist | UserKeysOff | Legacy | NoPin | Precondition | NoReport
  datatype LocalNote = LocalDone | LocalBroke | NeedsClarification | Fresh | NotCloned | Busy
  datatype FixNote = FixOk(id: Pid) | FixBroke | FixExists(id: Pid) | FixDeferred | FixBusy

  /** What reached the operator after the outcome was already written. */
  datatype LateNote = LateOutcome(outcome: Outcome) | LateFix | LatePending

  datatype Row = Row(
    kind: Kind,
    report: Rid,
    phase: Phase,
    intentAt: Option<int>,
    pin: Option<Pin>,            // the fix stage's model
    local: Option<LocalPins>,
    noAutoRetry: bool,
    requesterKey: bool,
    proposal: Option<Pid>,
    attempts: nat,
    steps: Steps,
    outcome: Option<Outcome>,
    message: Message,
    prUrl: Option<string>,
    acked: bool,
    breach: bool,
    late: Option<LateNote>)

  /** A terminal outcome about to be written; `fix_and_open_pr` carries a step pair. */
  datatype Result = Result(outcome: Outcome, message: Message, steps: Steps, prUrl: Option<string>)

  /** What an LLM stage leaves to do: finish the action, or go on to its PR step. */
  datatype StageResult = Finish(result: Result) | FixMade(proposal: Pid)

  function AsStep(o: Outcome): StepState {
    match o
    case Done => StepDone
    case Failed => StepFailed
    case Refused => StepRefused
  }

  /** A one-step outcome; for `fix_and_open_pr` it is the fix step's, and the PR step is skipped. */
  function StepResult(kind: Kind, outcome: Outcome, message: Message): Result {
    Result(outcome, message, if kind.FixAndOpenPr? then StepPair(AsStep(outcome), StepSkipped) else NoSteps, None)
  }

  /** The step pairs sonicgrid accepts, with the outcome each one goes with. */
  predicate LegalSteps(steps: Steps, outcome: Outcome) {
    match outcome
    case Done => steps == StepPair(StepDone, StepDone)
    case Failed => steps == StepPair(StepDone, StepFailed) || steps == StepPair(StepFailed, StepSkipped)
    case Refused => steps == StepPair(StepDone, StepRefused) || steps == StepPair(StepRefused, StepSkipped)
  }

  function NewRow(kind: Kind, report: Rid): Row {
    Row(kind, report, Reserved, None, None, None, false, false, None, 0, NoSteps, None, NoMessage, None, false, false,
        None)
  }

  /** The conditional terminal write: None when it would match no row. */
  function FinishRow(row: Row, r: Result, expected: Option<Phase>): Option<Row> {
    if row.phase.Finished? || (expected.Some? && row.phase != expected.value) then None
    else Some(row.(phase := Finished, outcome := Some(r.outcome), message := r.message, steps := r.steps))
  }

  /** `_finish`: write the outcome, or keep a late one as a note. */
  function Settle(row: Row, r: Result, expected: Option<Phase>): Row {
    match FinishRow(row, r, expected)
    case Some(done) => if r.prUrl.Some? then done.(prUrl := r.prUrl) else done
    case None => row.(late := Some(LateOutcome(r.outcome)))
  }

  predicate TimedOut(row: Row, now: int, bound: int) {
    row.intentAt.Some? && now - row.intentAt.value >= bound
  }

  function TimeoutResult(row: Row): Result {
    if row.kind.FixAndOpenPr? && row.phase.FixDone? && !row.steps.NoSteps?
    then Result(Failed, TimedOutMessage, StepPair(row.steps.fix, StepFailed), None)
    else StepResult(row.kind, Failed, TimedOutMessage)
  }

  /** `_expire_if_overdue`: the row after it, and whether the action is finished. */
  function Expire(row: Row, now: int, bound: int): (Row, bool) {
    if row.phase.Finished? then (row, true)
    else if TimedOut(row, now, bound) then (Settle(row, TimeoutResult(row), None), true)
    else (row, false)
  }

  /** The compound checkpoint: `fix: done` and its proposal id in one conditional write. */
  function Checkpoint(row: Row, proposal: Pid, from: Phase): Option<Row> {
    if row.phase != from then None
    else Some(row.(phase := FixDone, proposal := Some(proposal), steps := FixStep(StepDone)))
  }

  /** The body of a terminal POST. */
  datatype Body = Body(outcome: Outcome, message: Message, steps: Steps)

  function TerminalBody(row: Row): Body
    requires row.outcome.Some?
  {
    Body(row.outcome.value, row.message,
         if !row.kind.FixAndOpenPr? then NoSteps
         else if !row.steps.NoSteps? then row.steps
         else StepPair(AsStep(row.outcome.value), StepSkipped))
  }

  /** What the drain does with an answered terminal POST: 200, or 409 naming
      our own outcome, acknowledges it; 400, 404 and any other 409 is a breach
      that is not retried; anything else leaves it to the next tick. */
  function AckRow(row: Row, status: int, current: Option<Outcome>): Row {
    if status == 200 || (status == 409 && current.Some? && current == row.outcome) then row.(acked := true)
    else if status == 400 || status == 404 || status == 409 then row.(acked := true, breach := true)
    else row
  }
}
