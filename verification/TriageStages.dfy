/** What the stages of an action and the end of it lead to: the task from its
    start to the row, the inline kinds, the terminal POST and the restart. */
module TriageStages {
  import opened Common
  import opened Ledger
  import opened Actions
  import opened TriageMachine
  import opened TriageInvariant
  import opened TriageProgress
  import TriageRuns
  import TriageAuthority
  import Workflow

  // ------------------------------------------------------------ the fix stage

  /** The next task, with nothing but the slot's task changed. */
  predicate Moves(a: Act, b: Act, task: Task) {
    a.hold.Some? && b == a.(hold := Some(a.hold.value.(task := task)))
  }

  /** The stage is over with nothing but this result; its action is still open. */
  predicate StageOver(a: Act, b: Act, outcome: Outcome, message: Message) {
    && b.hold.Some? && b.hold.value.task.Over? && b.hold.value.task.result.Finish?
    && b.hold.value.task.result.result.outcome == outcome && b.hold.value.task.result.result.message == message
    && Moves(a, b, b.hold.value.task)
  }

  /** A task begins: with a credential request for a requester's action, with
      the local stages, or, if the gate allows its model on the environment's
      key, at the fix stage. */
  lemma TaskBeginsBy(s: State, id: Id, tokenOk: bool)
    requires id in s.acts && s.acts[id].hold.Some? && s.acts[id].hold.value.task.Queued?
    requires Inv(s.acts[id], s.userKeys, s.recorded)
    ensures s.acts[id].row.Some?
    ensures var a := s.acts[id]; var row := a.row.value; var b := Next(s, On(id, TaskBegins(tokenOk))).acts[id];
            if row.requesterKey then
              if tokenOk
              then Moves(a.(trace := a.trace.(credentials := a.trace.credentials + 1)), b, Fetching)
              else StageOver(a, b, Failed, CredentialFailed)
            else if row.kind.AnalyzeLocal? then Moves(a, b, LocalRun)
            else if s.userKeys && (row.pin.None? || !row.pin.value.provider.Ollama?) then
              StageOver(a, b, Refused, NotPermitted(Legacy))
            else Moves(a, b, Keyed(EnvKey))
  {
  }

  /** The requester's key is used if and only if the answer is a 200 with a key
      for Anthropic. An answer that denies it refuses the action; one that says
      it was already given out, or that says nothing, fails it. */
  lemma KeyIsUsedIff(s: State, id: Id, c: Credential)
    requires Reachable(s) && id in s.acts && s.acts[id].hold.Some? && s.acts[id].hold.value.task.Fetching?
    ensures s.acts[id].row.Some?
    ensures var a := s.acts[id]; var b := Next(s, On(id, CredentialAnswered(c))).acts[id];
            if c.Answer? && c.status == 200 && c.provider.Anthropic? && c.hasKey then Moves(a, b, Keyed(RequesterKey))
            else if c.Answer? && (c.status in {403, 404} || (c.status == 409 && !c.code.AlreadyReleased?)) then
              StageOver(a, b, Refused, CredentialRefused)
            else
              StageOver(a, b, Failed, if c.Answer? && c.status == 200 then CredentialInvalid
                                      else if c.Answer? && c.status == 409 then CredentialUsed else CredentialFailed)
  {
    Known(s, id);
    TriageAuthority.ReachableAuth(s);
    assert TriageAuthority.AuthOkAt(s, id);
    RequesterPinIsAnthropic(s.acts[id]);
  }

  lemma RequesterPinIsAnthropic(a: Act)
    requires TriageAuthority.AuthOk(a) && a.row.Some? && a.row.value.requesterKey
    ensures a.row.value.pin.Some? && a.row.value.pin.value.provider.Anthropic?
  {
    TriageAuthority.GrantsNeedConsent(a.listed, TriageAuthority.GrantOf(a.row.value));
  }

  /** The stage claims a triaged report, and no other, and otherwise refuses the action. */
  lemma StageClaimsIff(s: State, id: Id)
    requires id in s.acts && s.acts[id].hold.Some? && s.acts[id].hold.value.task.Keyed?
    requires Inv(s.acts[id], s.userKeys, s.recorded)
    ensures var a := s.acts[id]; var report := a.listed.report; var t := Next(s, On(id, StageClaims));
            if report in s.reports && s.reports[report].Triaged?
            then Moves(a, t.acts[id], Claimed(a.hold.value.task.key))
                 && t.reports == s.reports[report := Workflow.FixProposing]
            else StageOver(a, t.acts[id], Refused, FixMessage(FixBusy)) && t.reports == s.reports
  {
    var report := s.acts[id].listed.report;
    assert report in s.reports ==> s.reports == s.reports[report := s.reports[report]];
  }

  /** Under its claim the stage calls the model, once, on the key it holds; a
      proposal or a localization that is in its way refuses the action. */
  lemma PreconditionsCallIff(s: State, id: Id, p: Precheck)
    requires id in s.acts && s.acts[id].hold.Some? && s.acts[id].hold.value.task.Claimed?
    requires Inv(s.acts[id], s.userKeys, s.recorded)
    ensures s.acts[id].row.Some?
    ensures var a := s.acts[id]; var pin := a.row.value.pin; var b := Next(s, On(id, Preconditions(p))).acts[id];
            var call := ModelCall(a.hold.value.task.key, s.userKeys, pin.None? || !pin.value.provider.Ollama?);
            match p
            case Ready => Moves(a.(trace := a.trace.(calls := a.trace.calls + [call])), b, Calling)
            case Defer => StageOver(a, b, Refused, FixMessage(FixDeferred))
            case Prior(id) => StageOver(a, b, Refused, FixMessage(FixExists(id)))
            case Gone => StageOver(a, b, Refused, FixMessage(FixBusy))
  {
  }

  /** A valid answer's analysis and proposal are written before the stage
      returns; anything else leaves a failed row and fails the action. */
  lemma ModelAnswerIsKept(s: State, id: Id, valid: bool)
    requires id in s.acts && s.acts[id].hold.Some? && s.acts[id].hold.value.task.Calling?
    requires Inv(s.acts[id], s.userKeys, s.recorded)
    ensures var a := s.acts[id]; var b := Next(s, On(id, ModelAnswered(valid))).acts[id];
            var made := a.made.(rows := [StageRow(FixStage, if valid then StageCompleted else StageFailed, false)]
                                        + a.made.rows);
            if valid then Moves(a.(made := made), b, WroteFix)
            else StageOver(a.(made := made), b, Failed, FixMessage(FixBroke))
  {
  }

  lemma ProposalIsKept(s: State, id: Id, p: Pid)
    requires id in s.acts && s.acts[id].hold.Some? && s.acts[id].hold.value.task.WroteFix?
    requires Inv(s.acts[id], s.userKeys, s.recorded)
    ensures var a := s.acts[id]; var b := Next(s, On(id, ProposalWritten(p))).acts[id];
            Moves(a.(made := a.made.(proposals := [p] + a.made.proposals)), b, WroteProposal(p))
  {
  }

  /** What a stage that made this proposal hands over. */
  predicate HandsOver(kind: Kind, r: StageResult, p: Pid) {
    if kind.FixAndOpenPr? then r == FixMade(p)
    else r.Finish? && r.result.outcome.Done? && r.result.message == FixMessage(FixOk(p))
  }

  lemma StageReturnsIt(s: State, id: Id)
    requires id in s.acts && s.acts[id].hold.Some? && s.acts[id].hold.value.task.WroteProposal?
    requires Inv(s.acts[id], s.userKeys, s.recorded)
    ensures s.acts[id].row.Some?
    ensures var a := s.acts[id]; var b := Next(s, On(id, StageReturns)).acts[id];
            && b.hold.Some? && b.hold.value.task.Over? && Moves(a, b, b.hold.value.task)
            && HandsOver(a.row.value.kind, b.hold.value.task.result, a.hold.value.task.id)
  {
  }

  /** An exception under the stage's claim leaves a failed row; one outside it
      only fails the action. */
  lemma StageBreaks(s: State, id: Id, e: Event)
    requires id in s.acts && s.acts[id].hold.Some? && Inv(s.acts[id], s.userKeys, s.recorded)
    requires var task := s.acts[id].hold.value.task; task.Claimed? || task.WroteFix? || task.WroteProposal?
    requires e.StageBroke? || e.StageRaised?
    ensures var a := s.acts[id]; var b := Next(s, On(id, e)).acts[id];
            if e.StageRaised? then StageOver(a, b, Failed, Unexpected)
            else StageOver(a.(made := a.made.(rows := [StageRow(FixStage, StageFailed, false)] + a.made.rows)), b,
                           Failed, FixMessage(FixBroke))
  {
  }

  /** How the local stages end: done only with a localization. */
  lemma LocalStageEnds(s: State, id: Id, o: LocalOutcome)
    requires id in s.acts && s.acts[id].hold.Some? && s.acts[id].hold.value.task.LocalRun?
    requires Inv(s.acts[id], s.userKeys, s.recorded)
    ensures var a := s.acts[id]; var b := Next(s, On(id, LocalEnds(o))).acts[id];
            match o
            case Completed => StageOver(a, b, Done, LocalAnalysis(LocalDone))
            case LocalFailed => StageOver(a, b, Failed, LocalAnalysis(LocalBroke))
            case TriageOnly => StageOver(a, b, Failed, LocalAnalysis(NeedsClarification))
            case AlreadyFresh => StageOver(a, b, Refused, LocalAnalysis(Fresh))
            case NoRepo => StageOver(a, b, Refused, LocalAnalysis(NotCloned))
            case LocalNotClaimed => StageOver(a, b, Refused, LocalAnalysis(Busy))
  {
  }

  /** A stage that is over is written to its row, in time: a result ends the
      action with exactly that outcome, message and steps; a compound's proposal
      is checkpointed, and its PR step is next, in the same slot. */
  lemma StageEndIsWritten(s: State, id: Id, now: int)
    requires id in s.acts && s.acts[id].hold.Some? && s.acts[id].hold.value.task.Over?
    requires Inv(s.acts[id], s.userKeys, s.recorded) && s.acts[id].row.Some?
    requires !s.acts[id].row.value.phase.Finished? && !PastBound(s.acts[id].row.value, now, s.bound)
    ensures var a := s.acts[id]; var row := a.row.value; var b := Next(s, On(id, TaskEnds(now))).acts[id];
            && b.trace == a.trace && b.made == a.made
            && match a.hold.value.task.result
               case Finish(r) => Ended(b, r.outcome) && b.row.value.message == r.message && b.row.value.steps == r.steps
               case FixMade(p) =>
                 && b.row == Some(row.(phase := FixDone, proposal := Some(p), steps := FixStep(StepDone)))
                 && Moves(a.(row := b.row), b, PrReady)
  {
  }

  /** Out of time, or ended meanwhile, it is only noted. */
  lemma LateStageEndIsNoted(s: State, id: Id, now: int)
    requires id in s.acts && s.acts[id].hold.Some? && s.acts[id].hold.value.task.Over?
    requires Inv(s.acts[id], s.userKeys, s.recorded) && s.acts[id].row.Some?
    requires s.acts[id].row.value.phase.Finished? || PastBound(s.acts[id].row.value, now, s.bound)
    ensures var a := s.acts[id]; var row := a.row.value; var b := Next(s, On(id, TaskEnds(now))).acts[id];
            var r := a.hold.value.task.result;
            && b.hold.None? && b.trace == a.trace && b.made == a.made && b.row.Some?
            && (if row.phase.Finished? then b.row.value == row.(late := b.row.value.late)
                else TimedOutRow(row, b.row.value))
            && b.row.value.late == Some(if r.Finish? then LateOutcome(r.result.outcome) else LateFix)
  {
  }

  /** `s` and `t` agree on all but the actions and the statuses; the action's invariant holds in `t`. */
  ghost predicate Continues(s: State, t: State, id: Id) {
    && TriageRuns.Good(t) && id in s.acts && id in t.acts && t.userKeys == s.userKeys && t.bound == s.bound
    && t.acts[id].listed == s.acts[id].listed && Inv(t.acts[id], t.userKeys, t.recorded)
  }

  lemma ContinuesAfter(s: State, t: State, id: Id, e: Event)
    requires id in s.acts && Continues(s, t, id) && Next(t, On(id, e)).acts[id].listed == t.acts[id].listed
    ensures Continues(s, Next(t, On(id, e)), id)
  {
    TriageRuns.StepKeepsGood(t, On(id, e));
    Stepped(t, id, e);
    assert TriageRuns.ActOk(Next(t, On(id, e)), id);
  }

  /** A fix stage that is keyed, on a triaged report, with nothing in its way,
      a valid answer and time left, calls the model once and keeps its proposal:
      a cloud analysis is then done with it, and a compound is checkpointed on
      it and takes up its PR step in the same slot. */
  lemma FixRunFinishes(s: State, id: Id, p: Pid, now: int)
    requires Reachable(s) && id in s.acts && s.acts[id].hold.Some? && s.acts[id].hold.value.task.Keyed?
    requires s.acts[id].row.Some? && !s.acts[id].row.value.phase.Finished?
    requires !PastBound(s.acts[id].row.value, now, s.bound)
    requires Lookup(s.reports, s.acts[id].listed.report) == Some(Workflow.Triaged)
    ensures var a := s.acts[id]; var row := a.row.value;
            var called := Next(Next(s, On(id, StageClaims)), On(id, Preconditions(Ready)));
            var kept := Next(Next(called, On(id, ModelAnswered(true))), On(id, ProposalWritten(p)));
            var b := Next(Next(kept, On(id, StageReturns)), On(id, TaskEnds(now))).acts[id];
            && b.made.proposals == [p] + a.made.proposals && |b.trace.calls| == |a.trace.calls| + 1
            && if row.kind.FixAndOpenPr?
               then
                 && b.row == Some(row.(phase := FixDone, proposal := Some(p), steps := FixStep(StepDone)))
                 && b.hold == Some(a.hold.value.(task := PrReady))
               else Ended(b, Done) && b.row.value.message == FixMessage(FixOk(p))
  {
    Known(s, id);
    TriageRuns.ReachableIsGood(s);
    var s1 := Next(s, On(id, StageClaims));
    StageClaimsIff(s, id);
    ContinuesAfter(s, s, id, StageClaims);
    var s2 := Next(s1, On(id, Preconditions(Ready)));
    PreconditionsCallIff(s1, id, Ready);
    ContinuesAfter(s, s1, id, Preconditions(Ready));
    var s3 := Next(s2, On(id, ModelAnswered(true)));
    ModelAnswerIsKept(s2, id, true);
    ContinuesAfter(s, s2, id, ModelAnswered(true));
    var s4 := Next(s3, On(id, ProposalWritten(p)));
    ProposalIsKept(s3, id, p);
    ContinuesAfter(s, s3, id, ProposalWritten(p));
    StageReturnsIt(s4, id);
    ContinuesAfter(s, s4, id, StageReturns);
    StageEndIsWritten(Next(s4, On(id, StageReturns)), id, now);
  }

  /** A local analysis, run and written in time, ends as its stages ended: done
      only with a localization. */
  lemma LocalRunEnds(s: State, id: Id, o: LocalOutcome, now: int)
    requires Reachable(s) && id in s.acts && s.acts[id].hold.Some? && s.acts[id].hold.value.task.LocalRun?
    requires s.acts[id].row.Some? && !s.acts[id].row.value.phase.Finished?
    requires !PastBound(s.acts[id].row.value, now, s.bound)
    ensures var b := Next(Next(s, On(id, LocalEnds(o))), On(id, TaskEnds(now))).acts[id];
            && Ended(b, if o.Completed? then Done else if o.LocalFailed? || o.TriageOnly? then Failed else Refused)
            && b.trace == s.acts[id].trace
  {
    Known(s, id);
    TriageRuns.ReachableIsGood(s);
    LocalStageEnds(s, id, o);
    ContinuesAfter(s, s, id, LocalEnds(o));
    StageEndIsWritten(Next(s, On(id, LocalEnds(o))), id, now);
  }

  lemma OverIsWritten(t: State, id: Id, a: Act, outcome: Outcome, message: Message, now: int)
    requires id in t.acts && StageOver(a, t.acts[id], outcome, message) && Inv(t.acts[id], t.userKeys, t.recorded)
    requires a.row.Some? && !a.row.value.phase.Finished? && !PastBound(a.row.value, now, t.bound)
    ensures var b := Next(t, On(id, TaskEnds(now))).acts[id];
            Ended(b, outcome) && b.row.value.message == message && b.trace == a.trace && b.made == a.made
  {
    StageEndIsWritten(t, id, now);
  }

  /** A fix stage that breaks, in whatever way, fails its action in time: with a
      failed row of its own if it broke under its claim or its model's answer
      was no proposal. */
  lemma BrokenFixFails(s: State, id: Id, e: Event, now: int)
    requires Reachable(s) && id in s.acts && s.acts[id].hold.Some? && s.acts[id].row.Some?
    requires !s.acts[id].row.value.phase.Finished? && !PastBound(s.acts[id].row.value, now, s.bound)
    requires var task := s.acts[id].hold.value.task;
             || (e == ModelAnswered(false) && task.Calling?)
             || ((e.StageBroke? || e.StageRaised?) && (task.Claimed? || task.WroteFix? || task.WroteProposal?))
    ensures var a := s.acts[id]; var b := Next(Next(s, On(id, e)), On(id, TaskEnds(now))).acts[id];
            && Ended(b, Failed) && b.trace == a.trace && b.made.proposals == a.made.proposals
            && b.row.value.message == (if e.StageRaised? then Unexpected else FixMessage(FixBroke))
            && b.made.rows == (if e.StageRaised? then [] else [StageRow(FixStage, StageFailed, false)]) + a.made.rows
  {
    Known(s, id);
    TriageRuns.ReachableIsGood(s);
    var a := s.acts[id];
    var broke := a.(made := a.made.(rows := [StageRow(FixStage, StageFailed, false)] + a.made.rows));
    if e.ModelAnswered? {
      ModelAnswerIsKept(s, id, false);
    } else {
      StageBreaks(s, id, e);
    }
    ContinuesAfter(s, s, id, e);
    if e.StageRaised? {
      OverIsWritten(Next(s, On(id, e)), id, a, Failed, Unexpected, now);
    } else {
      OverIsWritten(Next(s, On(id, e)), id, broke, Failed, FixMessage(FixBroke), now);
    }
  }

  /** A queued task of a fix. */
  predicate FixQueued(a: Act) {
    a.hold.Some? && a.hold.value.task.Queued? && a.row.Some? && a.row.value.kind in {AnalyzeCloud, FixAndOpenPr}
  }

  /** From its task's start to its model: the four steps up to the call. */
  function UpToTheCall(s: State, id: Id, tokenOk: bool, c: Credential, p: Precheck): State {
    var keyed := Next(Next(s, On(id, TaskBegins(tokenOk))), On(id, CredentialAnswered(c)));
    Next(Next(keyed, On(id, StageClaims)), On(id, Preconditions(p)))
  }

  /** It may use the key it needs. */
  predicate KeyIsGood(row: Row, userKeys: bool, tokenOk: bool, c: Credential) {
    if row.requesterKey then tokenOk && c.Answer? && c.status == 200 && c.provider.Anthropic? && c.hasKey
    else !userKeys || (row.pin.Some? && row.pin.value.provider.Ollama?)
  }

  /** A queued fix calls its model if and only if it has its key, its report is
      triaged and nothing is in its way: then once, on the requester's key or the
      environment's as the grant says. Otherwise it calls none, and its stage is
      over. */
  lemma FixCallsItsModelIff(s: State, id: Id, tokenOk: bool, c: Credential, p: Precheck)
    requires Reachable(s) && id in s.acts && FixQueued(s.acts[id])
    ensures var a := s.acts[id]; var row := a.row.value; var b := UpToTheCall(s, id, tokenOk, c, p).acts[id];
            var key := if row.requesterKey then RequesterKey else EnvKey;
            var called := && KeyIsGood(row, s.userKeys, tokenOk, c) && p.Ready?
                          && Lookup(s.reports, a.listed.report) == Some(Workflow.Triaged);
            && b.hold.Some? && b.row == a.row
            && (if called
                then b.hold.value.task.Calling? && |b.trace.calls| == |a.trace.calls| + 1
                     && b.trace.calls[|a.trace.calls|].key == key
                else b.hold.value.task.Over? && b.trace.calls == a.trace.calls)
  {
    KeyArrivesOrNot(s, id, tokenOk, c);
    KeyedContinues(s, id, tokenOk, c);
    var s2 := Next(Next(s, On(id, TaskBegins(tokenOk))), On(id, CredentialAnswered(c)));
    if s2.acts[id].hold.value.task.Keyed? {
      ClaimsAndCalls(s, s2, id, p);
    } else {
      OverStaysOver(s2, id, p);
    }
  }

  lemma KeyedContinues(s: State, id: Id, tokenOk: bool, c: Credential)
    requires Reachable(s) && id in s.acts && FixQueued(s.acts[id])
    ensures Continues(s, Next(Next(s, On(id, TaskBegins(tokenOk))), On(id, CredentialAnswered(c))), id)
  {
    Known(s, id);
    TriageRuns.ReachableIsGood(s);
    TaskBeginsBy(s, id, tokenOk);
    ContinuesAfter(s, s, id, TaskBegins(tokenOk));
    KeyArrivesOrNot(s, id, tokenOk, c);
    ContinuesAfter(s, Next(s, On(id, TaskBegins(tokenOk))), id, CredentialAnswered(c));
  }

  lemma KeyArrivesOrNot(s: State, id: Id, tokenOk: bool, c: Credential)
    requires Reachable(s) && id in s.acts && FixQueued(s.acts[id])
    ensures var a := s.acts[id]; var row := a.row.value;
            var t := Next(Next(s, On(id, TaskBegins(tokenOk))), On(id, CredentialAnswered(c))); var b := t.acts[id];
            && b.hold.Some? && b.row == a.row && b.listed == a.listed && b.trace.calls == a.trace.calls
            && b.tick == a.tick && t.reports == s.reports
            && (if KeyIsGood(row, s.userKeys, tokenOk, c)
                then b.hold.value.task == Keyed(if row.requesterKey then RequesterKey else EnvKey)
                else b.hold.value.task.Over?)
  {
    var s1 := Next(s, On(id, TaskBegins(tokenOk)));
    Known(s, id);
    TaskBeginsBy(s, id, tokenOk);
    Unmoved(s, id, TaskBegins(tokenOk));
    Unmoved(s1, id, CredentialAnswered(c));
    if s1.acts[id].hold.value.task.Fetching? {
      ReachableAfter(s, On(id, TaskBegins(tokenOk)));
      KeyIsUsedIff(s1, id, c);
    } else {
      Unasked(s1, id, c);
    }
  }

  lemma Unasked(s: State, id: Id, c: Credential)
    requires id in s.acts && s.acts[id].hold.Some? && !s.acts[id].hold.value.task.Fetching?
    ensures Next(s, On(id, CredentialAnswered(c))).acts[id] == s.acts[id]
  {
  }

  /** Only a stage's claim and an inline step move a status. */
  lemma Unmoved(s: State, id: Id, e: Event)
    requires id in s.acts && !e.StageClaims? && !e.RunInline?
    ensures Next(s, On(id, e)).reports == s.reports
  {
    Stepped(s, id, e);
    StatusStays(s, s.acts[id], SlotsFor(s, id), e);
    var report := s.acts[id].listed.report;
    assert report in s.reports ==> s.reports == s.reports[report := s.reports[report]];
  }

  lemma StatusStays(s: State, a: Act, slots: Slots, e: Event)
    requires !e.StageClaims? && !e.RunInline?
    ensures Local(s, a, slots, e).0 == Lookup(s.reports, a.listed.report)
  {
  }

  lemma ClaimsAndCalls(s: State, t: State, id: Id, p: Precheck)
    requires id in s.acts && Continues(s, t, id) && t.acts[id].hold.Some? && t.acts[id].hold.value.task.Keyed?
    ensures var a := t.acts[id]; var u := Next(Next(t, On(id, StageClaims)), On(id, Preconditions(p)));
            var b := u.acts[id];
            var called := p.Ready? && Lookup(t.reports, a.listed.report) == Some(Workflow.Triaged);
            && b.hold.Some? && b.row == a.row
            && (if called
                then b.hold.value.task.Calling? && |b.trace.calls| == |a.trace.calls| + 1
                     && b.trace.calls[|a.trace.calls|].key == a.hold.value.task.key
                else b.hold.value.task.Over? && b.trace.calls == a.trace.calls)
  {
    StageClaimsIff(t, id);
    ContinuesAfter(s, t, id, StageClaims);
    var u := Next(t, On(id, StageClaims));
    if u.acts[id].hold.value.task.Claimed? {
      PreconditionsCallIff(u, id, p);
    } else {
      OverIgnores(u, id, Preconditions(p));
    }
  }

  lemma OverIgnores(s: State, id: Id, e: Event)
    requires id in s.acts && s.acts[id].hold.Some? && s.acts[id].hold.value.task.Over?
    requires e.StageClaims? || e.Preconditions?
    ensures Next(s, On(id, e)).acts[id] == s.acts[id]
  {
  }

  lemma OverStaysOver(s: State, id: Id, p: Precheck)
    requires id in s.acts && s.acts[id].hold.Some? && s.acts[id].hold.value.task.Over?
    ensures Next(Next(s, On(id, StageClaims)), On(id, Preconditions(p))).acts[id] == s.acts[id]
  {
    OverIgnores(s, id, StageClaims);
    OverIgnores(Next(s, On(id, StageClaims)), id, Preconditions(p));
  }

  // ------------------------------------------------------------ the observer

  /** Each side effect is counted when the action enters it, and then only. */
  predicate Counted(a: Act, b: Act) {
    var before := TaskOf(a); var after := TaskOf(b);
    && |b.trace.calls| == |a.trace.calls| + (if after.Calling? && !before.Calling? then 1 else 0)
    && b.trace.credentials == a.trace.credentials + (if after.Fetching? && !before.Fetching? then 1 else 0)
    && |b.trace.prCalls| == |a.trace.prCalls| + (if after.PrCalling? && !before.PrCalling? then 1 else 0)
  }

  lemma RecoverCounts(userKeys: bool, bound: int, a: Act, status: Option<Status>, slots: Slots, now: int)
    requires a.row.Some? && !Live(a)
    ensures Counted(a, Recover(userKeys, bound, a, status, slots, now))
  {
  }

  lemma ListingCounts(s: State, a: Act, slots: Slots, e: Event)
    requires Inv(a, s.userKeys, s.recorded) && e.Listing?
    ensures Counted(a, Local(s, a, slots, e).1)
  {
    if a.row.Some? && !Live(a) {
      RecoverCounts(s.userKeys, s.bound, a, Lookup(s.reports, a.listed.report), slots, e.now);
    }
  }

  lemma ClaimCounts(s: State, a: Act, slots: Slots, e: Event)
    requires e.ClaimAnswered?
    ensures Counted(a, Local(s, a, slots, e).1)
  {
  }

  lemma InlineCounts(s: State, a: Act, slots: Slots, e: Event)
    requires Inv(a, s.userKeys, s.recorded) && (e.DispatchIntended? || e.RunInline? || e.InlineEnds?)
    ensures Counted(a, Local(s, a, slots, e).1)
  {
  }

  lemma DrainCounts(s: State, a: Act, slots: Slots, e: Event)
    requires e.Overdue? || e.TerminalSent? || e.TerminalAnswered? || e.RemoteMoves?
    ensures Counted(a, Local(s, a, slots, e).1)
  {
  }

  lemma KeyCounts(s: State, a: Act, slots: Slots, e: Event)
    requires Inv(a, s.userKeys, s.recorded) && (e.TaskBegins? || e.CredentialAnswered?)
    ensures Counted(a, Local(s, a, slots, e).1)
  {
  }

  lemma CallCounts(s: State, a: Act, slots: Slots, e: Event)
    requires Inv(a, s.userKeys, s.recorded) && (e.StageClaims? || e.Preconditions?)
    ensures Counted(a, Local(s, a, slots, e).1)
  {
  }

  lemma AfterCallCounts(s: State, a: Act, slots: Slots, e: Event)
    requires Inv(a, s.userKeys, s.recorded) && (AfterCallEvent(e) || e.LocalRows? || e.LocalEnds?)
    ensures Counted(a, Local(s, a, slots, e).1)
  {
    var b := Local(s, a, slots, e).1;
    assert b.trace == a.trace;
  }

  lemma TaskEndCounts(s: State, a: Act, slots: Slots, e: Event)
    requires Inv(a, s.userKeys, s.recorded) && e.TaskEnds?
    ensures Counted(a, Local(s, a, slots, e).1)
  {
  }

  lemma PrCounts(s: State, a: Act, slots: Slots, e: Event)
    requires Inv(a, s.userKeys, s.recorded) && (e.PrBegins? || e.PrAnswered?)
    ensures Counted(a, Local(s, a, slots, e).1)
  {
    if e.PrAnswered? {
      AnswerCounts(s, a, slots, e);
    }
  }

  lemma AnswerCounts(s: State, a: Act, slots: Slots, e: Event)
    requires Inv(a, s.userKeys, s.recorded) && e.PrAnswered?
    ensures Counted(a, Local(s, a, slots, e).1)
  {
  }

  /** Every step of an action counts its model call, credential request and PR
      call exactly when it makes one. */
  lemma TraceCounts(s: State, a: Act, slots: Slots, e: Event)
    requires Inv(a, s.userKeys, s.recorded)
    ensures Counted(a, Local(s, a, slots, e).1)
  {
    if e.Listing? {
      ListingCounts(s, a, slots, e);
    } else if e.ClaimAnswered? {
      ClaimCounts(s, a, slots, e);
    } else if e.DispatchIntended? || e.RunInline? || e.InlineEnds? {
      InlineCounts(s, a, slots, e);
    } else if TickEvent(e) {
      DrainCounts(s, a, slots, e);
    } else if e.TaskBegins? || e.CredentialAnswered? {
      KeyCounts(s, a, slots, e);
    } else if e.StageClaims? || e.Preconditions? {
      CallCounts(s, a, slots, e);
    } else if AfterCallEvent(e) || e.LocalRows? || e.LocalEnds? {
      AfterCallCounts(s, a, slots, e);
    } else if e.TaskEnds? {
      TaskEndCounts(s, a, slots, e);
    } else {
      PrCounts(s, a, slots, e);
    }
  }

  // --------------------------------------------------------------- inline

  /** The outcome of an inline kind on a report in this status: `reopen` is done
      exactly for a closed report; `set_mode` goes as its write goes; `close` is
      done for a report that is closed, or may be and was not moved meanwhile. */
  function InlineVerdict(kind: Kind, status: Option<Status>, ok: bool, raced: bool): Outcome {
    if status.None? then Refused
    else if kind.Reopen? then (if status.value.Closed? then Done else Refused)
    else if kind.SetMode? then (if ok then Done else Failed)
    else if status.value.Closed? then Done
    else if status.value !in CLOSABLE then Refused
    else if !ok then Failed
    else if raced then Refused
    else Done
  }

  /** What that outcome says. */
  function InlineMessage(kind: Kind, status: Option<Status>, ok: bool, verdict: Outcome): Message {
    match verdict
    case Done => if kind.Reopen? then Reopened else if kind.SetMode? then ModeSet else ClosedNow
    case Failed => InlineFailed
    case Refused =>
      if status.None? then NotPermitted(NoReport)
      else if kind.Close? && status.value in CLOSABLE && ok then RacedUpdate
      else NotPermitted(Precondition)
  }

  /** And what it makes of that status. */
  function InlineStatus(kind: Kind, status: Status, verdict: Outcome): Status {
    if verdict.Done? && kind.Reopen? then Workflow.Triaged
    else if verdict.Done? && kind.Close? then Workflow.Closed
    else status
  }

  /** An inline step that was written at once, or is about to be. */
  predicate InlineRan(a: Act, b: Act, verdict: Outcome, message: Message) {
    if b.tick.None? then Ended(b, verdict) && b.row.value.message == message
    else
      && b.tick.value.InlineOver? && b == a.(tick := b.tick)
      && b.tick.value.result.outcome == verdict && b.tick.value.result.message == message
  }

  lemma InlineRuns(a: Act, status: Option<Status>, ok: bool, raced: bool)
    requires a.row.Some? && a.row.value.phase.Dispatched? && a.hold.Some? && a.hold.value.task.Idle?
    requires var kind := a.row.value.kind; kind.Reopen? || kind.SetMode? || kind.Close?
    ensures var (after, b) := Inline(a, status, ok, raced); var kind := a.row.value.kind;
            var verdict := InlineVerdict(kind, status, ok, raced);
            && InlineRan(a, b, verdict, InlineMessage(kind, status, ok, verdict))
            && after == (if status.Some? then Some(InlineStatus(kind, status.value, verdict)) else None)
  {
  }

  lemma InlineIsWritten(s: State, id: Id)
    requires id in s.acts && s.acts[id].hold.Some? && s.acts[id].hold.value.task.Idle?
    requires s.acts[id].tick.Some? && s.acts[id].tick.value.InlineOver?
    requires s.acts[id].row.Some? && s.acts[id].row.value.phase.Dispatched?
    ensures var t := Next(s, On(id, InlineEnds));
            && Ended(t.acts[id], s.acts[id].tick.value.result.outcome) && t.reports == s.reports
            && t.acts[id].row.value.message == s.acts[id].tick.value.result.message
  {
    Unmoved(s, id, InlineEnds);
    Stepped(s, id, InlineEnds);
    SettlesInline(s.acts[id]);
  }

  lemma SettlesInline(a: Act)
    requires a.hold.Some? && a.hold.value.task.Idle? && a.tick.Some? && a.tick.value.InlineOver?
    requires a.row.Some? && a.row.value.phase.Dispatched?
    ensures var b := Release(a.(row := Some(Settle(a.row.value, a.tick.value.result, Some(Dispatched))), tick := None));
            Ended(b, a.tick.value.result.outcome) && b.row.value.message == a.tick.value.result.message
  {
  }

  lemma NoTickNoInline(s: State, id: Id)
    requires id in s.acts && s.acts[id].tick.None?
    ensures var t := Next(s, On(id, InlineEnds)); t.acts[id] == s.acts[id] && t.reports == s.reports
  {
    Unmoved(s, id, InlineEnds);
  }

  lemma OnlyInlineKindsStart(s: State, id: Id)
    requires Reachable(s) && id in s.acts && s.acts[id].tick == Some(InlineStart)
    requires s.acts[id].row.Some? && s.acts[id].row.value.phase.Dispatched?
    ensures var a := s.acts[id]; var kind := a.row.value.kind;
            && (kind.Reopen? || kind.SetMode? || kind.Close?) && kind == a.listed.kind
            && a.hold.Some? && a.hold.value.task.Idle?
  {
    Known(s, id);
    TriageAuthority.ReachableAuth(s);
    assert TriageAuthority.AuthOkAt(s, id);
    TriageAuthority.GrantsNeedConsent(s.acts[id].listed, TriageAuthority.GrantOf(s.acts[id].row.value));
  }

  /** An inline kind, run and written, leaves the action ended with the verdict
      on its report, the report moved only as that verdict says, no other report
      touched, and nothing held. */
  lemma InlineStepEnds(s: State, id: Id, ok: bool, raced: bool)
    requires Reachable(s) && id in s.acts && s.acts[id].tick == Some(InlineStart)
    requires s.acts[id].row.Some? && s.acts[id].row.value.phase.Dispatched?
    ensures var a := s.acts[id]; var kind := a.row.value.kind; var report := a.listed.report;
            var verdict := InlineVerdict(kind, Lookup(s.reports, report), ok, raced);
            var t := Next(Next(s, On(id, RunInline(ok, raced))), On(id, InlineEnds));
            && Ended(t.acts[id], verdict)
            && t.acts[id].row.value.message == InlineMessage(kind, Lookup(s.reports, report), ok, verdict)
            && t.reports == if report in s.reports
                            then s.reports[report := InlineStatus(kind, s.reports[report], verdict)] else s.reports
  {
    var a := s.acts[id];
    OnlyInlineKindsStart(s, id);
    InlineRuns(a, Lookup(s.reports, a.listed.report), ok, raced);
    Stepped(s, id, RunInline(ok, raced));
    var t := Next(s, On(id, RunInline(ok, raced)));
    if t.acts[id].tick.None? {
      NoTickNoInline(t, id);
    } else {
      InlineIsWritten(t, id);
    }
  }

  /** One whose action was ended meanwhile is only noted. */
  lemma LateInlineIsNoted(s: State, id: Id)
    requires Reachable(s) && id in s.acts && s.acts[id].tick.Some? && s.acts[id].tick.value.InlineOver?
    requires s.acts[id].row.Some? && s.acts[id].row.value.phase.Finished?
    ensures var a := s.acts[id]; var b := Next(s, On(id, InlineEnds)).acts[id];
            b == a.(row := Some(a.row.value.(late := Some(LateOutcome(a.tick.value.result.outcome)))),
                    hold := None, tick := None)
  {
    Known(s, id);
  }

  // ------------------------------------------------- the ends of an action

  /** A finished action is posted exactly when it is not yet acknowledged and no
      POST of it is in flight. */
  lemma DrainPostsIff(s: State, id: Id)
    requires Reachable(s) && id in s.acts
    ensures var a := s.acts[id]; var b := Next(s, On(id, TerminalSent)).acts[id];
            && (|b.trace.posts| > |a.trace.posts| <==>
                  a.row.Some? && a.row.value.phase.Finished? && !a.row.value.acked && a.posting.None?)
            && (if |b.trace.posts| > |a.trace.posts|
                then b.posting.Some? && b.trace.posts == a.trace.posts + [b.posting.value]
                     && b.posting.value.outcome == a.row.value.outcome.value
                     && b.posting.value.message == a.row.value.message
                     && (a.row.value.kind.FixAndOpenPr? ==> b.posting.value.steps == a.row.value.steps)
                else b == a)
  {
    Known(s, id);
  }

  /** A POST sonicgrid rejects as malformed, unknown or in conflict is not sent
      again, and is kept as a breach, unless the conflict is with the outcome it
      carries; one that does not arrive changes nothing but the flight; and a
      lost answer leaves sonicgrid where the POST took it. */
  lemma RejectedPostIsABreach(s: State, id: Id, fate: Fate)
    requires Reachable(s) && id in s.acts && s.acts[id].posting.Some? && !fate.Answered?
    ensures s.acts[id].row.Some? && s.acts[id].row.value.outcome.Some?
    ensures var a := s.acts[id]; var row := a.row.value; var b := Next(s, On(id, TerminalAnswered(fate))).acts[id];
            var taken := a.remote.RemoteClaimed? || (a.remote.Pending? && row.outcome == Some(Refused));
            && b.posting.None? && b.trace == a.trace && b.hold == a.hold
            && b.row == Some(match fate
                             case BadRequest => row.(acked := true, breach := true)
                             case NotFound => row.(acked := true, breach := true)
                             case Conflict =>
                               row.(acked := true, breach := row.breach || a.remote != Terminal(row.outcome.value))
                             case _ => row)
            && b.remote == (if fate.AnswerLost? && taken then Terminal(row.outcome.value) else a.remote)
  {
    Known(s, id);
    RejectionIsKept(s.acts[id], fate);
    Stepped(s, id, TerminalAnswered(fate));
  }

  lemma RejectionIsKept(a: Act, fate: Fate)
    requires a.posting.Some? && a.row.Some? && !fate.Answered? && a.row.value.outcome == Some(a.posting.value.outcome)
    ensures var row := a.row.value; var outcome := row.outcome.value; var b := DrainAnswer(a, fate);
            && b == a.(posting := None, row := b.row, remote := b.remote)
            && b.row == Some(match fate
                             case BadRequest => row.(acked := true, breach := true)
                             case NotFound => row.(acked := true, breach := true)
                             case Conflict =>
                               row.(acked := true, breach := row.breach || a.remote != Terminal(outcome))
                             case _ => row)
            && b.remote == (if fate.AnswerLost? && (a.remote.RemoteClaimed? || (a.remote.Pending? && outcome.Refused?))
                            then Terminal(outcome) else a.remote)
  {
  }

  /** A listing leaves a finished action and one whose task lives as they are,
      but for an open row past the bound, which it ends while the task goes on. */
  lemma ListingLeavesTheBusy(s: State, id: Id, now: int)
    requires Reachable(s) && id in s.acts && s.acts[id].row.Some?
    requires s.acts[id].row.value.phase.Finished? || (s.acts[id].hold.Some? && s.acts[id].tick.None?)
    ensures var a := s.acts[id]; var row := a.row.value; var b := Next(s, On(id, Listing(now))).acts[id];
            if !row.phase.Finished? && PastBound(row, now, s.bound)
            then b.row.Some? && TimedOutRow(row, b.row.value) && b == a.(row := b.row)
            else b == a
  {
    Known(s, id);
  }

  /** A restart keeps every row, proposal and trace, empties every slot, marks
      what was running interrupted, and takes back the stages' claims, but not
      open-pr's, and no other status. */
  lemma RestartFrees(s: State, userKeys: bool, id: Id, report: Rid)
    requires id in s.acts && report in s.reports
    ensures var t := Next(s, Restart(userKeys)); var a := s.acts[id];
            && t.userKeys == userKeys && id in t.acts && report in t.reports
            && var b := t.acts[id];
               && b == a.(hold := None, tick := None, posting := None, made := b.made)
               && b.made.proposals == a.made.proposals && |b.made.rows| == |a.made.rows|
               && (forall i :: 0 <= i < |a.made.rows| ==>
                     b.made.rows[i] == if a.made.rows[i].status.StageRunning?
                                       then StageRow(a.made.rows[i].stage, StageFailed, true) else a.made.rows[i])
               && t.reports[report] == (if s.reports[report].Validating? then Workflow.Submitted
                                        else if s.reports[report] in {Workflow.Analyzing, Workflow.FixProposing}
                                        then Workflow.Triaged else s.reports[report])
  {
  }
}
