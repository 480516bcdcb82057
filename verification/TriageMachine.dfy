/** The triage sync as a machine over its steps (sync/triage_sync.py).

    A step is a stretch of code with one durable write, so a crash may fall
    between any two writes. Tasks of different actions, the tick, the expiry
    sweep, crashes, and the rest of the pipeline interleave freely. The clock,
    every remote answer and every stage outcome are chosen by the event. */
module TriageMachine {
  import opened Common
  import opened Ledger
  import opened Actions
  import Workflow
  import OpenPrAnswer

  type Status = Workflow.Status

  datatype Key = EnvKey | RequesterKey

  /** What a tracked task is about to do. `Idle`: no task, or it has exited. */
  datatype Task =
    | Idle
    | Queued                      // created, not begun
    | Fetching                    // the credential request is in flight
    | Keyed(key: Key)             // about to claim the report for the fix stage
    | Claimed(key: Key)           // holds the stage claim; preconditions next
    | Calling                     // the model call is in flight
    | WroteFix                    // the completed fix analysis is written, its proposal not yet
    | WroteProposal(id: Pid)      // the proposal too; usage and status not yet
    | LocalRun                    // the local stages are running
    | Over(result: StageResult)   // the stage returned; its outcome is not recorded yet
    | PrReady                     // about to start the open-pr step
    | PrCalling(proposal: Option<Pid>, attempts: nat)

  /** An executor slot. */
  datatype Hold = Hold(report: Rid, llm: bool, task: Task)

  /** Where the tick is with an action whose slot it holds itself. */
  datatype Tick = Posting | Intended | InlineStart | InlineOver(result: Result)

  /** Sonicgrid's own record of the action. */
  datatype Remote = Pending | RemoteClaimed | Terminal(outcome: Outcome)

  datatype ModelCall = ModelCall(key: Key, userKeys: bool, paid: bool)

  /** Everything an observer outside the process could have counted. */
  datatype Trace = Trace(
    dispatches: nat,
    credentials: nat,
    calls: seq<ModelCall>,
    prCalls: seq<Option<Pid>>,
    reopens: nat,
    posts: seq<Body>)

  /** One action: what sonicgrid lists, its ledger row, its slot, the tick's
      position in it, a terminal POST in flight, the stage rows tagged with
      it, sonicgrid's record, and the trace. */
  datatype Act = Act(
    listed: Listed,
    row: Option<Row>,
    hold: Option<Hold>,
    tick: Option<Tick>,
    posting: Option<Body>,
    made: Made,
    remote: Remote,
    trace: Trace)

  datatype State = State(
    userKeys: bool,              // the per-user-keys gate, fixed until a restart
    maxConcurrent: int,
    bound: int,
    acts: map<Id, Act>,
    reports: map<Rid, Status>,
    recorded: map<Rid, Pid>)     // the proposal each report's PR is recorded on

  // ---------------------------------------------------------------- slots

  function Cap(maxConcurrent: int): int {
    if maxConcurrent >= 1 then maxConcurrent else 1
  }

  function Held(acts: map<Id, Act>): set<Id> {
    set id | id in acts && acts[id].hold.Some?
  }

  function LlmHeld(acts: map<Id, Act>): set<Id> {
    set id | id in acts && acts[id].hold.Some? && acts[id].hold.value.llm
  }

  /** What `_try_hold` reads of the other actions. */
  datatype Slots = Slots(taken: set<Rid>, llmFull: bool)

  function SlotsFor(s: State, id: Id): Slots {
    Slots(set other | other in Held(s.acts) && other != id :: s.acts[other].hold.value.report,
          |LlmHeld(s.acts)| >= Cap(s.maxConcurrent))
  }

  predicate CanHold(a: Act, report: Rid, llm: bool, slots: Slots) {
    a.hold.Some? || (report !in slots.taken && (llm ==> !slots.llmFull))
  }

  function TakeHold(a: Act, report: Rid, llm: bool): Act {
    if a.hold.Some? then a else a.(hold := Some(Hold(report, llm, Idle)))
  }

  /** `_release` outside a task: a slot with a live task is kept. */
  function Release(a: Act): Act {
    if a.hold.Some? && a.hold.value.task.Idle? then a.(hold := None) else a
  }

  /** The task's own exit. */
  function Exit(a: Act): Act {
    a.(hold := None)
  }

  predicate Live(a: Act) {
    a.hold.Some? && !a.hold.value.task.Idle?
  }

  function Go(a: Act, task: Task): Act {
    if a.hold.Some? then a.(hold := Some(a.hold.value.(task := task))) else a
  }

  // ------------------------------------------------------------- dispatch

  /** `_dispatch`: from the expected phase only. */
  function Dispatch(a: Act, from: Phase): Act
    requires a.row.Some?
  {
    var row := a.row.value;
    if row.phase != from then Release(a.(tick := None))
    else
      var b := a.(row := Some(row.(phase := Dispatched)),
                  trace := a.trace.(dispatches := a.trace.dispatches + 1), tick := None);
      if Llm(row.kind) then Go(b, Queued)
      else if row.kind.OpenPr? then Go(b, PrReady)
      else b.(tick := Some(InlineStart))
  }

  /** The answer to the `claimed` POST: authorize once, then refuse straight
      from `reserved` or write the intent with its pins. */
  function Claim(userKeys: bool, a: Act, ctx: Context, status: Option<Status>, now: int): Act {
    if a.row.None? || status.None? then Release(a.(tick := None))
    else
      var row := a.row.value;
      match Authorize(userKeys, a.listed, ctx, status.value)
      case Refuse(result) => Release(a.(row := Some(Settle(row, result, Some(Reserved))), tick := None))
      case Grant(pin, local, noAutoRetry, requesterKey) =>
        if !row.phase.Reserved? then Release(a.(tick := None))
        else a.(row := Some(row.(phase := Intent, intentAt := Some(now), pin := pin, local := local,
                                 noAutoRetry := noAutoRetry, requesterKey := requesterKey)),
                tick := Some(Intended))
  }

  // ------------------------------------------------------------- recovery

  predicate StageClaimHeld(status: Option<Status>) {
    status.Some? && (status.value.Analyzing? || status.value.FixProposing?)
  }

  function ApplyEvidence(a: Act, found: StageResult, slots: Slots): Act
    requires a.row.Some?
  {
    var row := a.row.value;
    match found
    case Finish(result) => a.(row := Some(Settle(row, result, Some(row.phase))))
    case FixMade(proposal) =>
      match Checkpoint(row, proposal, row.phase)
      case None => a
      case Some(checkpointed) =>
        var b := a.(row := Some(checkpointed));
        if CanHold(b, row.report, false, slots) then Go(TakeHold(b, row.report, false), PrReady) else b
  }

  /** The recovery table, for an open row that nothing in this process is working on. */
  function Recover(userKeys: bool, bound: int, a: Act, status: Option<Status>, slots: Slots, now: int): Act
    requires a.row.Some?
  {
    var row := a.row.value;
    var llm := Llm(row.kind);
    if TimedOut(row, now, bound) then a.(row := Some(Settle(row, TimeoutResult(row), None)))
    else if row.phase.FixDone? then
      if CanHold(a, row.report, false, slots) then Go(TakeHold(a, row.report, false), PrReady) else a
    else if row.phase.Dispatched? && !llm then
      if !CanHold(a, row.report, false, slots) then a
      else if row.kind.OpenPr? then Go(TakeHold(a, row.report, false), PrReady)
      else TakeHold(a, row.report, false).(tick := Some(InlineStart))
    else if !row.phase.Intent? && !row.phase.Dispatched? then a
    else
      var found := Evidence(row.kind, a.made);
      if found.Some? then ApplyEvidence(a, found.value, slots)
      else if row.phase.Dispatched? && StageClaimHeld(status) then a
      else if row.phase.Intent? && userKeys && Paid(row.kind) && !row.requesterKey then
        a.(row := Some(Settle(row, StepResult(row.kind, Refused, NotPermitted(Legacy)), Some(row.phase))))
      else if row.noAutoRetry then
        a.(row := Some(Settle(row, UnconfirmedFailure(row.kind), Some(row.phase))))
      else if !CanHold(a, row.report, llm, slots) then a
      else Dispatch(TakeHold(a, row.report, llm), row.phase)
  }

  /** One listed action (`_handle`). Not entered while the tick holds the action itself. */
  function Handle(userKeys: bool, bound: int, a: Act, status: Option<Status>, slots: Slots, now: int): Act {
    var llm := Llm(a.listed.kind);
    if a.tick.Some? then a
    else if a.row.None? then
      if status.None? || !CanHold(a, a.listed.report, llm, slots) then a
      else TakeHold(a, a.listed.report, llm).(row := Some(NewRow(a.listed.kind, a.listed.report)),
                                              tick := Some(Posting))
    else
      var row := a.row.value;
      if row.phase.Finished? || Live(a) then
        if Live(a) && !row.phase.Finished? && TimedOut(row, now, bound)
        then a.(row := Some(Settle(row, TimeoutResult(row), None))) else a
      else if row.phase.Reserved? then
        if CanHold(a, row.report, Llm(row.kind), slots)
        then TakeHold(a, row.report, Llm(row.kind)).(tick := Some(Posting)) else a
      else Recover(userKeys, bound, a, status, slots, now)
  }

  // -------------------------------------------------------------- the task

  /** `_run_task` begins: fetch the requester's key, or go straight to the stage. */
  function Begin(userKeys: bool, a: Act, tokenOk: bool): Act {
    if a.row.None? then Exit(a)
    else
      var row := a.row.value;
      if row.requesterKey then
        if tokenOk then Go(a.(trace := a.trace.(credentials := a.trace.credentials + 1)), Fetching)
        else Go(a, Over(Finish(StepResult(row.kind, Failed, CredentialFailed))))
      else if row.kind.AnalyzeLocal? then Go(a, LocalRun)
      else if userKeys && (row.pin.None? || IsPaid(row.pin.value)) then
        Go(a, Over(Finish(StepResult(row.kind, Refused, NotPermitted(Legacy)))))
      else Go(a, Keyed(EnvKey))
  }

  function KeyArrives(a: Act, c: Credential): Act {
    if a.row.None? then Exit(a)
    else
      match CredentialOutcome(a.row.value, c)
      case Some(result) => Go(a, Over(Finish(result)))
      case None => Go(a, Keyed(RequesterKey))
  }

  /** The fix stage's precondition check, under its claim. */
  datatype Precheck = Ready | Defer | Prior(proposal: Pid) | Gone

  function CheckPreconditions(userKeys: bool, a: Act, key: Key, p: Precheck): Act {
    if a.row.None? then Exit(a)
    else
      var row := a.row.value;
      match p
      case Defer => Go(a, Over(MapFix(row.kind, Actions.Deferred)))
      case Prior(id) => Go(a, Over(MapFix(row.kind, AlreadyProposed(id))))
      case Gone => Go(a, Over(MapFix(row.kind, NotClaimed)))
      case Ready =>
        var call := ModelCall(key, userKeys, row.pin.None? || IsPaid(row.pin.value));
        Go(a.(trace := a.trace.(calls := a.trace.calls + [call])), Calling)
  }

  /** The model answered: a valid answer's analysis is written first; a
      failure is written as a failed `fix` row. */
  function ModelAnswers(a: Act, valid: bool): Act {
    if a.row.None? then Exit(a)
    else if valid then
      Go(a.(made := a.made.(rows := [StageRow(FixStage, StageCompleted, false)] + a.made.rows)), WroteFix)
    else
      Go(a.(made := a.made.(rows := [StageRow(FixStage, StageFailed, false)] + a.made.rows)),
         Over(MapFix(a.row.value.kind, FixFailed)))
  }

  /** Any other exception under the stage claim is also written as a failed
      `fix` row, even after the proposal. */
  function StageBreak(a: Act): Act {
    if a.row.None? then Exit(a) else ModelAnswers(a, false)
  }

  /** An exception that escapes the stage itself. */
  function Raise(a: Act): Act {
    if a.row.None? then Exit(a)
    else Go(a, Over(Finish(StepResult(a.row.value.kind, Failed, Unexpected))))
  }

  function WriteProposal(a: Act, id: Pid): Act {
    if a.row.None? then Exit(a)
    else Go(a.(made := a.made.(proposals := [id] + a.made.proposals)), WroteProposal(id))
  }

  /** `_run_task` after the stage returned. */
  function TaskOver(a: Act, r: StageResult, now: int, bound: int): Act {
    if a.row.None? then Exit(a)
    else
      var (row, finished) := Expire(a.row.value, now, bound);
      var late := if r.Finish? then LateOutcome(r.result.outcome) else LateFix;
      if finished then Exit(a.(row := Some(row.(late := Some(late)))))
      else
        match r
        case Finish(result) => Exit(a.(row := Some(Settle(row, result, Some(Dispatched)))))
        case FixMade(proposal) =>
          match Checkpoint(row, proposal, Dispatched)
          case None => Exit(a.(row := Some(row.(late := Some(LateFix)))))
          case Some(checkpointed) => Go(a.(row := Some(checkpointed)), PrReady)
  }

  function PrPhase(kind: Kind): Phase {
    if kind.FixAndOpenPr? then FixDone else Dispatched
  }

  /** `_run_pr` up to the call. */
  function PrBegin(a: Act, now: int, bound: int): Act {
    if a.row.None? || a.row.value.phase != PrPhase(a.row.value.kind) then Exit(a)
    else
      var (row, finished) := Expire(a.row.value, now, bound);
      if finished then Exit(a.(row := Some(row)))
      else
        var proposal := if row.kind.FixAndOpenPr? then row.proposal else None;
        Go(a.(trace := a.trace.(prCalls := a.trace.prCalls + [proposal])), PrCalling(proposal, row.attempts))
  }

  /** `_run_pr` after the call. */
  function PrOver(a: Act, attempts: nat, answer: PrAnswer, now: int, bound: int): Act {
    if a.row.None? || answer.Broken? then Exit(a)
    else
      var step := PrOutcome(answer, attempts);
      var (row, finished) := Expire(a.row.value, now, bound);
      var expected := PrPhase(row.kind);
      if finished then
        var late := if step.state.Some? then LateOutcome(step.state.value) else LatePending;
        Exit(a.(row := Some(row.(late := Some(late)))))
      else if step.state.None? then
        Exit(a.(row := Some(if row.phase == expected then row.(attempts := step.attempts) else row)))
      else Exit(a.(row := Some(Settle(row, PrResult(row, step), Some(expected)))))
  }

  /** `open_pull_request` answers 200/201 only for the proposal its PR is recorded on. */
  predicate AnswerFits(answer: PrAnswer, recorded: Option<Pid>, requested: Option<Pid>) {
    answer.Opened? ==> OpenPrAnswer.Answers(recorded, requested)
  }

  // --------------------------------------------------------------- inline

  /** An inline kind: the report's new status (if written) and the action after it. */
  function Inline(a: Act, status: Option<Status>, ok: bool, raced: bool): (Option<Status>, Act) {
    if a.row.None? then (status, Release(a.(tick := None)))
    else
      var row := a.row.value;
      var over := (o: Outcome, m: Message) => a.(tick := Some(InlineOver(Result(o, m, NoSteps, None))));
      if row.kind.Reopen? then
        if status.None? then (status, over(Refused, NotPermitted(NoReport)))
        else if !status.value.Closed? then (status, over(Refused, NotPermitted(Precondition)))
        else if !row.phase.Dispatched? then (status, Release(a.(tick := None)))
        else (Some(Workflow.Triaged),
              Release(a.(row := Some(row.(phase := Finished, outcome := Some(Done), steps := NoSteps,
                                          message := Reopened)),
                         tick := None, trace := a.trace.(reopens := a.trace.reopens + 1))))
      else if status.None? then (status, over(Refused, NotPermitted(NoReport)))
      else if row.kind.SetMode? then (status, if ok then over(Done, ModeSet) else over(Failed, InlineFailed))
      else if status.value.Closed? then (status, over(Done, ClosedNow))
      else if !Workflow.PatchAccepts(status.value, Workflow.Closed) then
        (status, over(Refused, NotPermitted(Precondition)))
      else if !ok then (status, over(Failed, InlineFailed))
      else if raced then (status, over(Refused, RacedUpdate))
      else (Some(Workflow.Closed), over(Done, ClosedNow))
  }

  // --------------------------------------------------------------- remote

  /** Sonicgrid's transitions; repeating the current state changes nothing. */
  function Advance(r: Remote, target: Remote): (Remote, int) {
    if r == target then (r, 200)
    else if r.Pending? && (target.RemoteClaimed? || target == Terminal(Refused)) then (target, 200)
    else if r.RemoteClaimed? && target.Terminal? then (target, 200)
    else (r, 409)
  }

  /** How one request ends. `Conflict`: it is refused with the state sonicgrid
      holds already, even if that is the one asked for. */
  datatype Fate = Answered | AnswerLost | NeverArrived | BadRequest | NotFound | Conflict

  function ClaimAnswer(userKeys: bool, a: Act, fate: Fate, ctx: Context, status: Option<Status>, now: int): Act {
    var (remote, code) := Advance(a.remote, RemoteClaimed);
    var dropReserved := (b: Act) =>
      if b.row.Some? && b.row.value.phase.Reserved? then b.(row := None) else b;
    match fate
    case NeverArrived => Release(a.(tick := None))
    case BadRequest => Release(a.(tick := None))
    case NotFound => Release(dropReserved(a).(tick := None))
    case Conflict => Release(dropReserved(a).(tick := None))
    case AnswerLost => Release(a.(remote := remote, tick := None))
    case Answered =>
      if code == 409 then Release(dropReserved(a).(tick := None))
      else Claim(userKeys, a.(remote := remote), ctx, status, now)
  }

  function DrainSend(a: Act): Act {
    if a.row.Some? && a.row.value.phase.Finished? && a.row.value.outcome.Some? && !a.row.value.acked && a.posting.None?
    then var body := TerminalBody(a.row.value);
      a.(posting := Some(body), trace := a.trace.(posts := a.trace.posts + [body]))
    else a
  }

  function DrainAnswer(a: Act, fate: Fate): Act {
    if a.posting.None? || a.row.None? then a.(posting := None)
    else
      var (remote, code) := Advance(a.remote, Terminal(a.posting.value.outcome));
      var current := if a.remote.Terminal? then Some(a.remote.outcome) else None;
      match fate
      case NeverArrived => a.(posting := None)
      case AnswerLost => a.(posting := None, remote := remote)
      case BadRequest => a.(posting := None, row := Some(AckRow(a.row.value, 400, None)))
      case NotFound => a.(posting := None, row := Some(AckRow(a.row.value, 404, None)))
      case Conflict => a.(posting := None, row := Some(AckRow(a.row.value, 409, current)))
      case Answered => a.(posting := None, remote := remote, row := Some(AckRow(a.row.value, code, current)))
  }

  /** The expiry sweep, for one action. */
  function Sweep(a: Act, now: int, bound: int): Act {
    if a.row.Some? && (a.row.value.phase.Intent? || a.row.value.phase.Dispatched? || a.row.value.phase.FixDone?)
    then a.(row := Some(Expire(a.row.value, now, bound).0)) else a
  }

  // ---------------------------------------------------------------- events

  /** Events of one action. */
  datatype Event =
    | Listing(now: int)
    | ClaimAnswered(fate: Fate, ctx: Context, now: int)
    | DispatchIntended
    | RunInline(ok: bool, raced: bool)
    | InlineEnds
    | TaskBegins(tokenOk: bool)
    | CredentialAnswered(credential: Credential)
    | StageClaims
    | Preconditions(precheck: Precheck)
    | ModelAnswered(valid: bool)
    | ProposalWritten(proposal: Pid)
    | StageReturns
    | StageBroke
    | StageRaised
    | LocalRows(rows: seq<StageRow>)
    | LocalEnds(outcome: LocalOutcome)
    | TaskEnds(now: int)
    | PrBegins(now: int)
    | PrAnswered(answer: PrAnswer, now: int)
    | Overdue(now: int)
    | TerminalSent
    | TerminalAnswered(fate: Fate)
    | RemoteMoves(target: Remote)

  /** Events of the whole process and its environment. */
  datatype Step =
    | On(id: Id, event: Event)
    | Restart(userKeys: bool)                    // a crash or stop, then startup
    | StatusWritten(report: Rid, status: Status) // any other writer of the report
    | PrRecorded(report: Rid, proposal: Pid)     // any open-pr call that finished

  /** An LLM task that has begun and not returned. */
  predicate InStage(t: Task) {
    t.Fetching? || t.Keyed? || t.Claimed? || t.Calling? || t.WroteFix? || t.WroteProposal? || t.LocalRun?
  }

  function Lookup<K, V>(m: map<K, V>, k: K): Option<V> {
    if k in m then Some(m[k]) else None
  }

  /** The status of its report, and the action, after one of its own events. */
  function Local(s: State, a: Act, slots: Slots, e: Event): (Option<Status>, Act) {
    var status := Lookup(s.reports, a.listed.report);
    var recorded := Lookup(s.recorded, a.listed.report);
    var task := if a.hold.Some? then a.hold.value.task else Idle;
    match e
    case Listing(now) => (status, Handle(s.userKeys, s.bound, a, status, slots, now))
    case ClaimAnswered(fate, ctx, now) =>
      (status, if a.tick == Some(Posting) then ClaimAnswer(s.userKeys, a, fate, ctx, status, now) else a)
    case DispatchIntended =>
      (status, if a.tick == Some(Intended) && a.row.Some? then Dispatch(a, Intent) else a)
    case RunInline(ok, raced) =>
      if a.tick == Some(InlineStart) then Inline(a, status, ok, raced) else (status, a)
    case InlineEnds =>
      (status, if a.tick.Some? && a.tick.value.InlineOver? && a.row.Some?
               then Release(a.(row := Some(Settle(a.row.value, a.tick.value.result, Some(Dispatched))),
                               tick := None)) else a)
    case TaskBegins(tokenOk) => (status, if task.Queued? then Begin(s.userKeys, a, tokenOk) else a)
    case CredentialAnswered(c) => (status, if task.Fetching? then KeyArrives(a, c) else a)
    case StageClaims =>
      if !task.Keyed? || a.row.None? then (status, a)
      else if status == Some(Workflow.Triaged) then (Some(Workflow.FixProposing), Go(a, Claimed(task.key)))
      else (status, Go(a, Over(MapFix(a.row.value.kind, NotClaimed))))
    case Preconditions(p) => (status, if task.Claimed? then CheckPreconditions(s.userKeys, a, task.key, p) else a)
    case ModelAnswered(valid) => (status, if task.Calling? then ModelAnswers(a, valid) else a)
    case ProposalWritten(id) => (status, if task.WroteFix? then WriteProposal(a, id) else a)
    case StageReturns =>
      (status, if task.WroteProposal? && a.row.Some?
               then Go(a, Over(MapFix(a.row.value.kind, Proposed(task.id)))) else a)
    case StageBroke =>
      (status, if task.Claimed? || task.WroteFix? || task.WroteProposal? then StageBreak(a) else a)
    case StageRaised => (status, if InStage(task) then Raise(a) else a)
    case LocalRows(rows) => (status, if task.LocalRun? then a.(made := a.made.(rows := rows)) else a)
    case LocalEnds(o) => (status, if task.LocalRun? then Go(a, Over(Finish(MapLocal(o)))) else a)
    case TaskEnds(now) => (status, if task.Over? then TaskOver(a, task.result, now, s.bound) else a)
    case PrBegins(now) => (status, if task.PrReady? then PrBegin(a, now, s.bound) else a)
    case PrAnswered(answer, now) =>
      (status, if task.PrCalling? && AnswerFits(answer, recorded, task.proposal)
               then PrOver(a, task.attempts, answer, now, s.bound) else a)
    case Overdue(now) => (status, Sweep(a, now, s.bound))
    case TerminalSent => (status, DrainSend(a))
    case TerminalAnswered(fate) => (status, if a.posting.Some? then DrainAnswer(a, fate) else a)
    case RemoteMoves(target) => (status, a.(remote := Advance(a.remote, target).0))
  }

  /** Memory is gone; unfinished stage rows are marked interrupted. */
  function RestartAct(a: Act): Act {
    a.(hold := None, tick := None, posting := None, made := Interrupt(a.made))
  }

  /** `release_orphaned_claims`: transient stage claims roll back; open-pr's is not one of them. */
  function Rollback(s: Status): Status {
    match s
    case Validating => Workflow.Submitted
    case Analyzing => Workflow.Triaged
    case FixProposing => Workflow.Triaged
    case _ => s
  }

  function Next(s: State, step: Step): State {
    match step
    case Restart(userKeys) =>
      s.(userKeys := userKeys, acts := map id | id in s.acts :: RestartAct(s.acts[id]),
         reports := map r | r in s.reports :: Rollback(s.reports[r]))
    case StatusWritten(report, status) => s.(reports := s.reports[report := status])
    case PrRecorded(report, proposal) =>
      if report in s.recorded then s else s.(recorded := s.recorded[report := proposal])
    case On(id, event) =>
      if id !in s.acts then s
      else
        var (status, act) := Local(s, s.acts[id], SlotsFor(s, id), event);
        var report := s.acts[id].listed.report;
        s.(acts := s.acts[id := act],
           reports := if status.Some? then s.reports[report := status.value] else s.reports)
  }

  function Run(s: State, steps: seq<Step>): State
    decreases |steps|
  {
    if steps == [] then s else Next(Run(s, steps[..|steps| - 1]), steps[|steps| - 1])
  }

  const NO_TRACE := Trace(0, 0, [], [], 0, [])

  function NewAct(l: Listed): Act {
    Act(l, None, None, None, None, Made([], []), Pending, NO_TRACE)
  }

  /** Nothing is in the ledger or in memory yet; settings, listing, report statuses are arbitrary. */
  ghost predicate Initial(s: State) {
    forall id <- s.acts :: s.acts[id] == NewAct(s.acts[id].listed)
  }

  /** Over every run, with crashes at any step. */
  ghost predicate Reachable(s: State) {
    exists s0: State, steps: seq<Step> :: Initial(s0) && s == Run(s0, steps)
  }
}
