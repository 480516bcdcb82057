/** What every step of the triage machine keeps, one action at a time. */
module TriageInvariant {
  import opened Common
  import opened Ledger
  import opened Actions
  import opened TriageMachine
  import Workflow

  /** The action has not been dispatched, and nothing outside the process has happened for it. */
  predicate NoEffects(t: Trace) {
    t.dispatches == 0 && t.credentials == 0 && |t.calls| == 0 && |t.prCalls| == 0 && t.reopens == 0
  }

  predicate Untouched(t: Trace) {
    NoEffects(t) && |t.posts| == 0
  }

  predicate NothingMade(m: Made) {
    |m.rows| == 0 && |m.proposals| == 0
  }

  predicate FixTask(t: Task) {
    t.Fetching? || t.Keyed? || t.Claimed? || t.Calling? || t.WroteFix? || t.WroteProposal?
  }

  /** The model call of this dispatch is still to come. */
  predicate BeforeCall(t: Task) {
    t.Queued? || t.Fetching? || t.Keyed? || t.Claimed?
  }

  function TaskOf(a: Act): Task {
    if a.hold.Some? then a.hold.value.task else Idle
  }

  /** The fix step ended `refused`: the whole outcome, or the first step of a compound. */
  predicate FixRefused(r: Row) {
    && r.phase.Finished?
    && (if r.kind.FixAndOpenPr? then r.steps == StepPair(StepRefused, StepSkipped) else r.outcome == Some(Refused))
  }

  /** A result of the fix part of an action: never `done` for a compound. */
  predicate StageOutcome(kind: Kind, r: Result) {
    if kind.FixAndOpenPr?
    then r.outcome != Done && r.steps == StepPair(AsStep(r.outcome), StepSkipped)
    else r.steps.NoSteps?
  }

  // ------------------------------------------------- slot, tick and phase

  predicate SlotOk(a: Act) {
    && (a.hold.Some? ==> a.hold.value.report == a.listed.report)
    && (a.tick.Some? <==> a.hold.Some? && a.hold.value.task.Idle?)
    && (a.row.None? ==> a.hold.None? && a.posting.None? && Untouched(a.trace) && NothingMade(a.made))
  }

  predicate PhaseOk(a: Act)
    requires a.row.Some?
  {
    var r := a.row.value;
    && r.kind == a.listed.kind && r.report == a.listed.report
    && (r.phase.Reserved? || r.phase.Intent? ==>
          Untouched(a.trace) && NothingMade(a.made) && !Live(a) && r.proposal.None?)
    && (a.tick == Some(Posting) ==> r.phase.Reserved?)
    && (a.tick == Some(Intended) ==> r.phase.Intent? || r.phase.Finished?)
    && (a.tick.Some? && (a.tick.value.InlineStart? || a.tick.value.InlineOver?) ==>
          !Llm(r.kind) && !r.kind.OpenPr? && (r.phase.Dispatched? || r.phase.Finished?))
    && (r.phase.Finished? <==> r.outcome.Some?)
    && (r.acked || r.breach ==> r.phase.Finished?)
    && (r.phase.FixDone? ==> r.kind.FixAndOpenPr?)
  }

  // ---------------------------------------------------- paid side effects

  predicate SpendOk(a: Act)
    requires a.row.Some?
  {
    var r := a.row.value; var t := TaskOf(a);
    && (t.Queued? || FixTask(t) || t.LocalRun? || t.Over? ==> Llm(r.kind))
    && (FixTask(t) ==> Paid(r.kind)) && (t.LocalRun? ==> r.kind.AnalyzeLocal?)
    && (r.noAutoRetry ==> Paid(r.kind) && a.trace.dispatches <= 1)
    && |a.trace.calls| + (if BeforeCall(t) && Paid(r.kind) then 1 else 0) <= a.trace.dispatches
    && a.trace.credentials + (if t.Queued? then 1 else 0) <= a.trace.dispatches
    && (|a.trace.calls| > 0 ==> Paid(r.kind))
    && (a.trace.credentials > 0 ==> r.requesterKey)
    && (t.Over? && t.result.Finish? ==> StageOutcome(r.kind, t.result.result))
    && (t.Over? && t.result.Finish? && t.result.result.outcome.Refused? && r.noAutoRetry ==> |a.trace.calls| == 0)
    && (r.noAutoRetry && FixRefused(r) ==> |a.trace.calls| == 0 && !BeforeCall(t))
  }

  predicate KeyOk(a: Act, userKeys: bool)
    requires a.row.Some?
  {
    var r := a.row.value; var t := TaskOf(a);
    && (r.requesterKey ==> r.noAutoRetry && Paid(r.kind))
    && (!a.listed.llm.Absent? && Paid(r.kind) && !r.phase.Reserved? ==>
          r.requesterKey || (r.phase.Finished? && NoEffects(a.trace) && !Live(a)))
    && (t.Fetching? ==> r.requesterKey)
    && (t.Keyed? || t.Claimed? ==> (t.key.RequesterKey? <==> r.requesterKey))
    && ((t.Keyed? || t.Claimed?) && t.key.EnvKey? && userKeys ==> r.pin.Some? && !IsPaid(r.pin.value))
    && (forall c <- a.trace.calls :: c.key.RequesterKey? <==> r.requesterKey)
    && (forall c <- a.trace.calls :: c.key.EnvKey? && c.userKeys ==> !c.paid)
  }

  // -------------------------------------------------------- the PR step

  predicate CompoundOk(a: Act)
    requires a.row.Some?
  {
    var r := a.row.value; var t := TaskOf(a);
    && (r.proposal.Some? ==>
          r.kind.FixAndOpenPr? && (r.phase.FixDone? || r.phase.Finished?) && r.proposal.value in a.made.proposals)
    && (t.Queued? || FixTask(t) || t.LocalRun? || t.Over? ==> r.proposal.None?)
    && (r.phase.FixDone? ==> r.proposal.Some? && r.steps == FixStep(StepDone))
    && (t.WroteProposal? ==> t.id in a.made.proposals)
    && (t.Over? && t.result.FixMade? ==> r.kind.FixAndOpenPr? && t.result.proposal in a.made.proposals)
    && (t.PrReady? || t.PrCalling? ==> r.kind.OpenPr? || (r.kind.FixAndOpenPr? && r.proposal.Some?))
    && (t.PrCalling? ==> t.proposal == r.proposal)
    && (|a.trace.prCalls| > 0 ==> r.kind.OpenPr? || r.proposal.Some?)
    && (forall c <- a.trace.prCalls :: c == r.proposal)
  }

  predicate StepsOk(a: Act)
    requires a.row.Some?
  {
    var r := a.row.value;
    && (r.kind.FixAndOpenPr? && r.phase.Finished? ==>
          r.outcome.Some? && LegalSteps(r.steps, r.outcome.value) && (r.steps.fix.StepDone? <==> r.proposal.Some?))
    && (!r.kind.FixAndOpenPr? ==> r.steps.NoSteps?)
    && (a.tick.Some? && a.tick.value.InlineOver? ==> a.tick.value.result.steps.NoSteps?)
  }

  predicate RecordOk(a: Act, recorded: map<Rid, Pid>)
    requires a.row.Some?
  {
    var r := a.row.value;
    && (r.kind.FixAndOpenPr? && r.outcome == Some(Done) ==>
          r.report in recorded && r.proposal == Some(recorded[r.report]))
    && (r.kind.OpenPr? && r.outcome == Some(Done) ==> r.report in recorded)
  }

  // ------------------------------------------------- reopen and terminals

  predicate ReopenOk(a: Act)
    requires a.row.Some?
  {
    var r := a.row.value;
    && a.trace.reopens == (if r.kind.Reopen? && r.outcome == Some(Done) then 1 else 0)
    && (r.kind.Reopen? && a.tick.Some? && a.tick.value.InlineOver? ==> a.tick.value.result.outcome.Refused?)
  }

  predicate PostsOk(a: Act)
    requires a.row.Some?
  {
    var r := a.row.value;
    && (forall b <- a.trace.posts :: r.outcome.Some? && b == TerminalBody(r))
    && (a.posting.Some? ==> r.outcome.Some? && !r.acked && a.posting.value == TerminalBody(r))
    && (r.acked && !r.breach ==> r.outcome.Some? && a.remote == Terminal(r.outcome.value))
  }

  predicate RowInv(a: Act, userKeys: bool, recorded: map<Rid, Pid>) {
    && a.row.Some?
    && PhaseOk(a)
    && SpendOk(a)
    && KeyOk(a, userKeys)
    && CompoundOk(a)
    && StepsOk(a)
    && RecordOk(a, recorded)
    && ReopenOk(a)
    && PostsOk(a)
  }

  predicate Inv(a: Act, userKeys: bool, recorded: map<Rid, Pid>) {
    SlotOk(a) && (a.row.Some? ==> RowInv(a, userKeys, recorded))
  }

  // -------------------------------------------------- writing an outcome

  /** An outcome that may be written to the action where it stands. */
  predicate Writable(a: Act, r: Result, recorded: map<Rid, Pid>)
    requires a.row.Some?
  {
    var row := a.row.value;
    && (row.kind.FixAndOpenPr? ==>
          LegalSteps(r.steps, r.outcome) && (r.steps.fix.StepDone? <==> row.proposal.Some?))
    && (!row.kind.FixAndOpenPr? ==> r.steps.NoSteps?)
    && (r.outcome.Done? ==>
          && !row.kind.Reopen?
          && (row.kind.OpenPr? ==> row.report in recorded)
          && (row.kind.FixAndOpenPr? ==> row.report in recorded && row.proposal == Some(recorded[row.report])))
    && (row.noAutoRetry && r.outcome.Refused? && !(row.kind.FixAndOpenPr? && row.proposal.Some?) ==>
          |a.trace.calls| == 0 && !BeforeCall(TaskOf(a)))
  }

  function Written(row: Row, r: Result, prUrl: Option<string>): Row {
    row.(phase := Finished, outcome := Some(r.outcome), message := r.message, steps := r.steps, prUrl := prUrl)
  }

  lemma WrittenKeepsSpend(a: Act, r: Result, prUrl: Option<string>, userKeys: bool, recorded: map<Rid, Pid>)
    requires RowInv(a, userKeys, recorded) && !a.row.value.phase.Finished?
    requires Writable(a, r, recorded) && a.tick != Some(Posting)
    ensures var b := a.(row := Some(Written(a.row.value, r, prUrl)));
            PhaseOk(b) && SpendOk(b) && KeyOk(b, userKeys)
  {
  }

  lemma WrittenKeepsRest(a: Act, r: Result, prUrl: Option<string>, userKeys: bool, recorded: map<Rid, Pid>)
    requires RowInv(a, userKeys, recorded) && !a.row.value.phase.Finished?
    requires Writable(a, r, recorded) && a.tick != Some(Posting)
    ensures var b := a.(row := Some(Written(a.row.value, r, prUrl)));
            CompoundOk(b) && StepsOk(b) && RecordOk(b, recorded) && ReopenOk(b) && PostsOk(b)
  {
  }

  lemma Settled(a: Act, r: Result, expected: Option<Phase>, userKeys: bool, recorded: map<Rid, Pid>)
    requires RowInv(a, userKeys, recorded)
    requires Writable(a, r, recorded) && a.tick != Some(Posting)
    ensures RowInv(a.(row := Some(Settle(a.row.value, r, expected))), userKeys, recorded)
  {
    var row := a.row.value;
    if FinishRow(row, r, expected).Some? {
      var prUrl := if r.prUrl.Some? then r.prUrl else row.prUrl;
      WrittenKeepsSpend(a, r, prUrl, userKeys, recorded);
      WrittenKeepsRest(a, r, prUrl, userKeys, recorded);
      assert Settle(row, r, expected) == Written(row, r, prUrl);
    } else {
      Noted(a, LateOutcome(r.outcome), userKeys, recorded);
    }
  }

  lemma Noted(a: Act, late: LateNote, userKeys: bool, recorded: map<Rid, Pid>)
    requires RowInv(a, userKeys, recorded)
    ensures RowInv(a.(row := Some(a.row.value.(late := Some(late)))), userKeys, recorded)
  {
  }

  lemma Cleared(a: Act, userKeys: bool, recorded: map<Rid, Pid>)
    requires RowInv(a, userKeys, recorded)
    ensures RowInv(a.(hold := None, tick := None), userKeys, recorded)
  {
  }

  lemma Expired(a: Act, now: int, bound: int, userKeys: bool, recorded: map<Rid, Pid>)
    requires RowInv(a, userKeys, recorded) && a.tick != Some(Posting)
    requires !a.row.value.phase.Reserved?
    ensures RowInv(a.(row := Some(Expire(a.row.value, now, bound).0)), userKeys, recorded)
  {
    var row := a.row.value;
    if !row.phase.Finished? && TimedOut(row, now, bound) {
      Settled(a, TimeoutResult(row), None, userKeys, recorded);
    }
  }

  // ------------------------------------------------------------ the steps

  lemma DispatchKeeps(a: Act, from: Phase, userKeys: bool, recorded: map<Rid, Pid>)
    requires RowInv(a, userKeys, recorded)
    requires a.hold.Some? && a.hold.value.report == a.listed.report && TaskOf(a).Idle? && a.tick != Some(Posting)
    requires from.Intent? || (from.Dispatched? && Llm(a.row.value.kind) && !a.row.value.noAutoRetry)
    ensures Inv(Dispatch(a, from), userKeys, recorded)
  {
    if a.row.value.phase != from {
      Cleared(a, userKeys, recorded);
    } else if Llm(a.row.value.kind) {
      DispatchLlmKeeps(a, from, userKeys, recorded);
    } else {
      DispatchPlainKeeps(a, from, userKeys, recorded);
    }
  }

  lemma DispatchLlmKeeps(a: Act, from: Phase, userKeys: bool, recorded: map<Rid, Pid>)
    requires RowInv(a, userKeys, recorded) && a.row.value.phase == from && Llm(a.row.value.kind)
    requires a.hold.Some? && a.hold.value.report == a.listed.report && TaskOf(a).Idle? && a.tick != Some(Posting)
    requires from.Intent? || (from.Dispatched? && !a.row.value.noAutoRetry)
    ensures Inv(Dispatch(a, from), userKeys, recorded)
  {
  }

  lemma DispatchPlainKeeps(a: Act, from: Phase, userKeys: bool, recorded: map<Rid, Pid>)
    requires RowInv(a, userKeys, recorded) && a.row.value.phase == from && !Llm(a.row.value.kind)
    requires a.hold.Some? && a.hold.value.report == a.listed.report && TaskOf(a).Idle? && a.tick != Some(Posting)
    requires from.Intent?
    ensures Inv(Dispatch(a, from), userKeys, recorded)
  {
  }

  lemma CheckpointKeeps(a: Act, proposal: Pid, from: Phase, userKeys: bool, recorded: map<Rid, Pid>)
    requires RowInv(a, userKeys, recorded) && Checkpoint(a.row.value, proposal, from).Some?
    requires a.row.value.kind.FixAndOpenPr? && from.Dispatched? && proposal in a.made.proposals && a.tick.None?
    ensures RowInv(a.(row := Some(Checkpoint(a.row.value, proposal, from).value), hold := None), userKeys, recorded)
    ensures forall h: Hold :: RowInv(a.(row := Some(Checkpoint(a.row.value, proposal, from).value),
              hold := Some(h.(task := PrReady))), userKeys, recorded)
  {
  }

  lemma EvidenceIsWritable(a: Act, userKeys: bool, recorded: map<Rid, Pid>)
    requires RowInv(a, userKeys, recorded) && a.hold.None?
    requires a.row.value.phase.Intent? || a.row.value.phase.Dispatched?
    ensures var found := Evidence(a.row.value.kind, a.made);
            found.Some? ==>
              && a.row.value.phase.Dispatched?
              && (found.value.Finish? ==> Writable(a, found.value.result, recorded))
              && (found.value.FixMade? ==> a.row.value.kind.FixAndOpenPr? && found.value.proposal in a.made.proposals)
  {
  }

  lemma ApplyEvidenceKeeps(a: Act, found: StageResult, slots: Slots, userKeys: bool, recorded: map<Rid, Pid>)
    requires Inv(a, userKeys, recorded) && a.row.Some? && a.hold.None?
    requires a.row.value.phase.Intent? || a.row.value.phase.Dispatched?
    requires Evidence(a.row.value.kind, a.made) == Some(found)
    ensures Inv(ApplyEvidence(a, found, slots), userKeys, recorded)
  {
    EvidenceIsWritable(a, userKeys, recorded);
    if found.Finish? {
      Settled(a, found.result, Some(a.row.value.phase), userKeys, recorded);
    } else {
      CheckpointKeeps(a, found.proposal, a.row.value.phase, userKeys, recorded);
    }
  }

  /** The slot of a PR step or of an inline kind is taken again. */
  lemma ResumeKeeps(a: Act, task: Task, tick: Option<Tick>, userKeys: bool, recorded: map<Rid, Pid>)
    requires Inv(a, userKeys, recorded) && a.row.Some? && a.hold.None?
    requires if a.row.value.phase.FixDone? || a.row.value.kind.OpenPr? then task.PrReady? && tick.None?
             else task.Idle? && tick == Some(InlineStart) && !Llm(a.row.value.kind)
    requires a.row.value.phase.FixDone? || a.row.value.phase.Dispatched?
    ensures Inv(a.(hold := Some(Hold(a.row.value.report, false, task)), tick := tick), userKeys, recorded)
  {
  }

  lemma RecoverKeeps(a: Act, userKeys: bool, bound: int, status: Option<Status>, slots: Slots, now: int,
                     recorded: map<Rid, Pid>)
    requires Inv(a, userKeys, recorded) && a.row.Some? && a.hold.None?
    requires !a.row.value.phase.Reserved? && !a.row.value.phase.Finished?
    ensures Inv(Recover(userKeys, bound, a, status, slots, now), userKeys, recorded)
  {
    var row := a.row.value;
    var held := TakeHold(a, row.report, Llm(row.kind));
    if TimedOut(row, now, bound) {
      Settled(a, TimeoutResult(row), None, userKeys, recorded);
    } else if row.phase.FixDone? || (row.phase.Dispatched? && !Llm(row.kind)) {
      if CanHold(a, row.report, false, slots) {
        var pr := row.phase.FixDone? || row.kind.OpenPr?;
        ResumeKeeps(a, if pr then PrReady else Idle, if pr then None else Some(InlineStart), userKeys, recorded);
      }
    } else if Evidence(row.kind, a.made).Some? {
      ApplyEvidenceKeeps(a, Evidence(row.kind, a.made).value, slots, userKeys, recorded);
    } else if row.phase.Dispatched? && StageClaimHeld(status) {
    } else if row.phase.Intent? && userKeys && Paid(row.kind) && !row.requesterKey {
      Settled(a, StepResult(row.kind, Refused, NotPermitted(Legacy)), Some(row.phase), userKeys, recorded);
    } else if row.noAutoRetry {
      Settled(a, UnconfirmedFailure(row.kind), Some(row.phase), userKeys, recorded);
    } else if CanHold(a, row.report, Llm(row.kind), slots) {
      DispatchKeeps(held, row.phase, userKeys, recorded);
    }
  }

  lemma ListingKeeps(s: State, a: Act, slots: Slots, e: Event)
    requires e.Listing? && Inv(a, s.userKeys, s.recorded)
    ensures Inv(Local(s, a, slots, e).1, s.userKeys, s.recorded)
  {
    if a.row.Some? && a.tick.None? {
      var row := a.row.value;
      if row.phase.Finished? || Live(a) {
        if Live(a) && !row.phase.Finished? && TimedOut(row, e.now, s.bound) {
          Settled(a, TimeoutResult(row), None, s.userKeys, s.recorded);
        }
      } else if !row.phase.Reserved? {
        RecoverKeeps(a, s.userKeys, s.bound, Lookup(s.reports, a.listed.report), slots, e.now, s.recorded);
      }
    }
  }

  lemma ClaimKeeps(a: Act, userKeys: bool, ctx: Context, status: Option<Status>, now: int, recorded: map<Rid, Pid>)
    requires Inv(a, userKeys, recorded) && a.tick == Some(Posting)
    ensures Inv(Claim(userKeys, a, ctx, status, now), userKeys, recorded)
  {
    if a.row.Some? {
      Cleared(a, userKeys, recorded);
      if status.Some? {
        var auth := Authorize(userKeys, a.listed, ctx, status.value);
        if auth.Refuse? {
          Settled(a.(hold := None, tick := None), auth.result, Some(Reserved), userKeys, recorded);
        }
      }
    }
  }

  lemma ClaimAnswerKeeps(a: Act, fate: Fate, ctx: Context, status: Option<Status>, now: int, userKeys: bool,
                         recorded: map<Rid, Pid>)
    requires Inv(a, userKeys, recorded) && a.tick == Some(Posting)
    ensures Inv(ClaimAnswer(userKeys, a, fate, ctx, status, now), userKeys, recorded)
  {
    RemoteKeeps(a, RemoteClaimed, userKeys, recorded);
    var b := a.(remote := Advance(a.remote, RemoteClaimed).0);
    if a.row.Some? {
      Cleared(a, userKeys, recorded);
      Cleared(b, userKeys, recorded);
      ClaimKeeps(b, userKeys, ctx, status, now, recorded);
    }
  }

  lemma IntendedKeeps(s: State, a: Act, slots: Slots, e: Event)
    requires e.DispatchIntended?
    requires Inv(a, s.userKeys, s.recorded)
    ensures Inv(Local(s, a, slots, e).1, s.userKeys, s.recorded)
  {
    if a.tick == Some(Intended) && a.row.Some? {
      DispatchKeeps(a, Intent, s.userKeys, s.recorded);
    }
  }

  lemma InlineEndKeeps(s: State, a: Act, slots: Slots, e: Event)
    requires e.InlineEnds? && Inv(a, s.userKeys, s.recorded)
    ensures Inv(Local(s, a, slots, e).1, s.userKeys, s.recorded)
  {
    if a.row.Some? && a.tick.Some? && a.tick.value.InlineOver? {
      Cleared(a, s.userKeys, s.recorded);
      Settled(a.(hold := None, tick := None), a.tick.value.result, Some(Dispatched), s.userKeys, s.recorded);
    }
  }

  lemma InlineOverKeeps(a: Act, r: Result, userKeys: bool, recorded: map<Rid, Pid>)
    requires Inv(a, userKeys, recorded) && a.tick == Some(InlineStart) && a.row.Some?
    requires r.steps.NoSteps? && (a.row.value.kind.Reopen? ==> r.outcome.Refused?)
    ensures Inv(a.(tick := Some(InlineOver(r))), userKeys, recorded)
  {
  }

  lemma ReopenKeeps(a: Act, userKeys: bool, recorded: map<Rid, Pid>)
    requires Inv(a, userKeys, recorded) && a.tick == Some(InlineStart) && a.row.Some? && a.row.value.kind.Reopen?
    ensures Inv(Inline(a, Some(Workflow.Closed), true, false).1, userKeys, recorded)
  {
    Cleared(a, userKeys, recorded);
  }

  lemma InlineKeeps(a: Act, status: Option<Status>, ok: bool, raced: bool, userKeys: bool, recorded: map<Rid, Pid>)
    requires Inv(a, userKeys, recorded) && a.tick == Some(InlineStart)
    ensures Inv(Inline(a, status, ok, raced).1, userKeys, recorded)
  {
    if a.row.Some? {
      var b := Inline(a, status, ok, raced).1;
      if a.row.value.kind.Reopen? && status == Some(Workflow.Closed) {
        ReopenKeeps(a, userKeys, recorded);
      } else {
        InlineOverKeeps(a, b.tick.value.result, userKeys, recorded);
      }
    }
  }

  lemma BeginKeeps(a: Act, tokenOk: bool, userKeys: bool, recorded: map<Rid, Pid>)
    requires Inv(a, userKeys, recorded) && TaskOf(a).Queued?
    ensures Inv(Begin(userKeys, a, tokenOk), userKeys, recorded)
  {
    if a.row.value.requesterKey {
      BeginFetchKeeps(a, tokenOk, userKeys, recorded);
    } else {
      BeginStageKeeps(a, tokenOk, userKeys, recorded);
    }
  }

  lemma BeginFetchKeeps(a: Act, tokenOk: bool, userKeys: bool, recorded: map<Rid, Pid>)
    requires Inv(a, userKeys, recorded) && TaskOf(a).Queued? && a.row.value.requesterKey
    ensures Inv(Begin(userKeys, a, tokenOk), userKeys, recorded)
  {
  }

  lemma BeginStageKeeps(a: Act, tokenOk: bool, userKeys: bool, recorded: map<Rid, Pid>)
    requires Inv(a, userKeys, recorded) && TaskOf(a).Queued? && !a.row.value.requesterKey
    ensures Inv(Begin(userKeys, a, tokenOk), userKeys, recorded)
  {
    if a.row.value.kind.AnalyzeLocal? {
      BeginLocalKeeps(a, userKeys, recorded);
    } else {
      BeginFixKeeps(a, tokenOk, userKeys, recorded);
    }
  }

  lemma BeginLocalKeeps(a: Act, userKeys: bool, recorded: map<Rid, Pid>)
    requires Inv(a, userKeys, recorded) && TaskOf(a).Queued? && a.row.value.kind.AnalyzeLocal?
    ensures Inv(Go(a, LocalRun), userKeys, recorded)
  {
  }

  lemma BeginFixKeeps(a: Act, tokenOk: bool, userKeys: bool, recorded: map<Rid, Pid>)
    requires Inv(a, userKeys, recorded) && TaskOf(a).Queued?
    requires !a.row.value.requesterKey && !a.row.value.kind.AnalyzeLocal?
    ensures Inv(Begin(userKeys, a, tokenOk), userKeys, recorded)
  {
  }

  lemma KeyKeeps(a: Act, c: Credential, userKeys: bool, recorded: map<Rid, Pid>)
    requires Inv(a, userKeys, recorded) && TaskOf(a).Fetching?
    ensures Inv(KeyArrives(a, c), userKeys, recorded)
  {
  }

  lemma StageClaimKeeps(a: Act, userKeys: bool, recorded: map<Rid, Pid>)
    requires Inv(a, userKeys, recorded) && TaskOf(a).Keyed? && a.row.Some?
    ensures Inv(Go(a, Claimed(TaskOf(a).key)), userKeys, recorded)
    ensures Inv(Go(a, Over(MapFix(a.row.value.kind, NotClaimed))), userKeys, recorded)
  {
    ClaimedKeeps(a, userKeys, recorded);
    PassedOverKeeps(a, NotClaimed, userKeys, recorded);
  }

  lemma ClaimedKeeps(a: Act, userKeys: bool, recorded: map<Rid, Pid>)
    requires Inv(a, userKeys, recorded) && TaskOf(a).Keyed?
    ensures Inv(Go(a, Claimed(TaskOf(a).key)), userKeys, recorded)
  {
  }

  /** The stage ends without a model call. */
  lemma PassedOverKeeps(a: Act, o: FixOutcome, userKeys: bool, recorded: map<Rid, Pid>)
    requires Inv(a, userKeys, recorded) && (TaskOf(a).Keyed? || TaskOf(a).Claimed?) && a.row.Some?
    requires o.NotClaimed? || o.Deferred? || o.AlreadyProposed?
    ensures Inv(Go(a, Over(MapFix(a.row.value.kind, o))), userKeys, recorded)
  {
  }

  lemma PreconditionsKeep(a: Act, p: Precheck, userKeys: bool, recorded: map<Rid, Pid>)
    requires Inv(a, userKeys, recorded) && TaskOf(a).Claimed? && a.row.Some?
    ensures Inv(CheckPreconditions(userKeys, a, TaskOf(a).key, p), userKeys, recorded)
  {
    match p
    case Ready => CallKeeps(a, userKeys, recorded);
    case Defer => PassedOverKeeps(a, Actions.Deferred, userKeys, recorded);
    case Prior(id) => PassedOverKeeps(a, AlreadyProposed(id), userKeys, recorded);
    case Gone => PassedOverKeeps(a, NotClaimed, userKeys, recorded);
  }

  lemma CallKeeps(a: Act, userKeys: bool, recorded: map<Rid, Pid>)
    requires Inv(a, userKeys, recorded) && TaskOf(a).Claimed? && a.row.Some?
    ensures Inv(CheckPreconditions(userKeys, a, TaskOf(a).key, Ready), userKeys, recorded)
  {
  }

  lemma ModelAnswerKeeps(a: Act, valid: bool, userKeys: bool, recorded: map<Rid, Pid>)
    requires Inv(a, userKeys, recorded)
    requires TaskOf(a).Calling? || (!valid && (TaskOf(a).Claimed? || TaskOf(a).WroteFix? || TaskOf(a).WroteProposal?))
    ensures Inv(ModelAnswers(a, valid), userKeys, recorded)
  {
  }

  lemma ProposalKeeps(a: Act, id: Pid, userKeys: bool, recorded: map<Rid, Pid>)
    requires Inv(a, userKeys, recorded) && TaskOf(a).WroteFix?
    ensures Inv(WriteProposal(a, id), userKeys, recorded)
  {
  }

  lemma ReturnKeeps(a: Act, userKeys: bool, recorded: map<Rid, Pid>)
    requires Inv(a, userKeys, recorded) && TaskOf(a).WroteProposal? && a.row.Some?
    ensures Inv(Go(a, Over(MapFix(a.row.value.kind, Proposed(TaskOf(a).id)))), userKeys, recorded)
  {
  }

  lemma RaiseKeeps(a: Act, userKeys: bool, recorded: map<Rid, Pid>)
    requires Inv(a, userKeys, recorded) && InStage(TaskOf(a))
    ensures Inv(Raise(a), userKeys, recorded)
  {
  }

  lemma LocalKeeps(s: State, a: Act, slots: Slots, e: Event)
    requires e.LocalRows? || e.LocalEnds?
    requires Inv(a, s.userKeys, s.recorded)
    ensures Inv(Local(s, a, slots, e).1, s.userKeys, s.recorded)
  {
  }

  lemma TaskEndKeeps(a: Act, now: int, bound: int, userKeys: bool, recorded: map<Rid, Pid>)
    requires Inv(a, userKeys, recorded) && TaskOf(a).Over?
    ensures Inv(TaskOver(a, TaskOf(a).result, now, bound), userKeys, recorded)
  {
    if a.row.Some? {
      var r := TaskOf(a).result;
      var b := a.(hold := None, tick := None);
      Cleared(a, userKeys, recorded);
      var (row, finished) := Expire(a.row.value, now, bound);
      if finished {
        ExpiredAndNoted(b, now, bound, if r.Finish? then LateOutcome(r.result.outcome) else LateFix, userKeys,
                        recorded);
      } else if r.Finish? {
        StageResultIsWritable(a, userKeys, recorded);
        Settled(b, r.result, Some(Dispatched), userKeys, recorded);
      } else if row.phase.Dispatched? {
        CheckpointKeeps(b, r.proposal, Dispatched, userKeys, recorded);
      } else {
        Noted(b, LateFix, userKeys, recorded);
      }
    }
  }

  lemma ExpiredAndNoted(a: Act, now: int, bound: int, late: LateNote, userKeys: bool, recorded: map<Rid, Pid>)
    requires RowInv(a, userKeys, recorded) && a.tick != Some(Posting) && !a.row.value.phase.Reserved?
    ensures RowInv(a.(row := Some(Expire(a.row.value, now, bound).0.(late := Some(late)))), userKeys, recorded)
  {
    Expired(a, now, bound, userKeys, recorded);
    Noted(a.(row := Some(Expire(a.row.value, now, bound).0)), late, userKeys, recorded);
  }

  lemma StageResultIsWritable(a: Act, userKeys: bool, recorded: map<Rid, Pid>)
    requires RowInv(a, userKeys, recorded) && TaskOf(a).Over? && TaskOf(a).result.Finish?
    ensures Writable(a.(hold := None, tick := None), TaskOf(a).result.result, recorded)
  {
  }

  lemma PrBeginKeeps(a: Act, now: int, bound: int, userKeys: bool, recorded: map<Rid, Pid>)
    requires Inv(a, userKeys, recorded) && TaskOf(a).PrReady?
    ensures Inv(PrBegin(a, now, bound), userKeys, recorded)
  {
    if a.row.Some? {
      Cleared(a, userKeys, recorded);
      if !a.row.value.phase.Reserved? {
        Expired(a.(hold := None, tick := None), now, bound, userKeys, recorded);
      }
    }
  }

  lemma OverdueKeeps(s: State, a: Act, slots: Slots, e: Event)
    requires e.Overdue? && Inv(a, s.userKeys, s.recorded)
    ensures Inv(Local(s, a, slots, e).1, s.userKeys, s.recorded)
  {
    if a.row.Some? && a.tick != Some(Posting) && !a.row.value.phase.Reserved? {
      Expired(a, e.now, s.bound, s.userKeys, s.recorded);
    }
  }

  lemma PrResultIsWritable(a: Act, step: PrStep, answer: PrAnswer, userKeys: bool, recorded: map<Rid, Pid>)
    requires RowInv(a, userKeys, recorded) && TaskOf(a).PrCalling? && !answer.Broken?
    requires step == PrOutcome(answer, TaskOf(a).attempts) && step.state.Some?
    requires a.row.value.phase == PrPhase(a.row.value.kind)
    requires AnswerFits(answer, Lookup(recorded, a.row.value.report), TaskOf(a).proposal)
    ensures Writable(a.(hold := None, tick := None), PrResult(a.row.value, step), recorded)
  {
  }

  lemma PrOverKeeps(a: Act, answer: PrAnswer, now: int, bound: int, userKeys: bool, recorded: map<Rid, Pid>)
    requires Inv(a, userKeys, recorded) && TaskOf(a).PrCalling? && a.row.Some?
    requires AnswerFits(answer, Lookup(recorded, a.listed.report), TaskOf(a).proposal)
    ensures Inv(PrOver(a, TaskOf(a).attempts, answer, now, bound), userKeys, recorded)
  {
    Cleared(a, userKeys, recorded);
    if !answer.Broken? {
      if Expire(a.row.value, now, bound).1 {
        var state := PrOutcome(answer, TaskOf(a).attempts).state;
        ExpiredAndNoted(a.(hold := None, tick := None), now, bound,
                        if state.Some? then LateOutcome(state.value) else LatePending, userKeys, recorded);
      } else {
        PrInTimeKeeps(a, answer, now, bound, userKeys, recorded);
      }
    }
  }

  lemma PrInTimeKeeps(a: Act, answer: PrAnswer, now: int, bound: int, userKeys: bool, recorded: map<Rid, Pid>)
    requires Inv(a, userKeys, recorded) && TaskOf(a).PrCalling? && a.row.Some? && !answer.Broken?
    requires AnswerFits(answer, Lookup(recorded, a.listed.report), TaskOf(a).proposal)
    requires !Expire(a.row.value, now, bound).1
    ensures Inv(PrOver(a, TaskOf(a).attempts, answer, now, bound), userKeys, recorded)
  {
    var b := a.(hold := None, tick := None);
    var row := a.row.value;
    var step := PrOutcome(answer, TaskOf(a).attempts);
    Cleared(a, userKeys, recorded);
    if step.state.None? {
      Counted(b, step.attempts, userKeys, recorded);
    } else {
      PrResultIsWritable(a, step, answer, userKeys, recorded);
      Settled(b, PrResult(row, step), Some(PrPhase(row.kind)), userKeys, recorded);
    }
  }

  lemma Counted(a: Act, attempts: nat, userKeys: bool, recorded: map<Rid, Pid>)
    requires RowInv(a, userKeys, recorded)
    ensures RowInv(a.(row := Some(a.row.value.(attempts := attempts))), userKeys, recorded)
  {
  }

  lemma SendKeeps(a: Act, userKeys: bool, recorded: map<Rid, Pid>)
    requires Inv(a, userKeys, recorded)
    ensures Inv(DrainSend(a), userKeys, recorded)
  {
  }

  lemma RemoteKeeps(a: Act, target: Remote, userKeys: bool, recorded: map<Rid, Pid>)
    requires Inv(a, userKeys, recorded)
    ensures Inv(a.(remote := Advance(a.remote, target).0), userKeys, recorded)
  {
    var remote := Advance(a.remote, target).0;
    assert a.remote.Terminal? ==> remote == a.remote;
    RemoteSet(a, remote, userKeys, recorded);
  }

  lemma RemoteSet(a: Act, remote: Remote, userKeys: bool, recorded: map<Rid, Pid>)
    requires Inv(a, userKeys, recorded) && (a.remote.Terminal? ==> remote == a.remote)
    ensures Inv(a.(remote := remote), userKeys, recorded)
  {
  }

  lemma AckKeeps(a: Act, fate: Fate, userKeys: bool, recorded: map<Rid, Pid>)
    requires Inv(a, userKeys, recorded) && a.posting.Some?
    ensures Inv(DrainAnswer(a, fate), userKeys, recorded)
  {
    var b := DrainAnswer(a, fate);
    AckIs(a, fate);
    AckedKeeps(a, b.row.value.acked, b.row.value.breach, b.remote, userKeys, recorded);
  }

  lemma AckIs(a: Act, fate: Fate)
    requires a.row.Some? && a.row.value.outcome.Some? && !a.row.value.acked
    requires a.posting == Some(TerminalBody(a.row.value))
    ensures var b := DrainAnswer(a, fate); var row := a.row.value;
            && b == a.(row := b.row, remote := b.remote, posting := None) && b.row.Some?
            && b.row.value == row.(acked := b.row.value.acked, breach := b.row.value.breach)
            && (b.row.value.acked && !b.row.value.breach ==> b.remote == Terminal(row.outcome.value))
  {
  }

  lemma AckedKeeps(a: Act, acked: bool, breach: bool, remote: Remote, userKeys: bool, recorded: map<Rid, Pid>)
    requires Inv(a, userKeys, recorded) && a.posting.Some?
    requires acked && !breach ==> remote == Terminal(a.row.value.outcome.value)
    ensures Inv(a.(row := Some(a.row.value.(acked := acked, breach := breach)), remote := remote, posting := None),
                userKeys, recorded)
  {
  }

  predicate TickEvent(e: Event) {
    || e.Listing? || e.ClaimAnswered? || e.DispatchIntended? || e.RunInline? || e.InlineEnds?
    || e.Overdue? || e.TerminalSent? || e.TerminalAnswered? || e.RemoteMoves?
  }

  lemma TickEventKeeps(s: State, a: Act, slots: Slots, e: Event)
    requires TickEvent(e) && !e.Listing? && Inv(a, s.userKeys, s.recorded)
    ensures Inv(Local(s, a, slots, e).1, s.userKeys, s.recorded)
  {
    match e
    case ClaimAnswered(fate, ctx, now) =>
      if a.tick == Some(Posting) {
        ClaimAnswerKeeps(a, fate, ctx, Lookup(s.reports, a.listed.report), now, s.userKeys, s.recorded);
      }
    case DispatchIntended => IntendedKeeps(s, a, slots, e);
    case RunInline(ok, raced) =>
      if a.tick == Some(InlineStart) {
        InlineKeeps(a, Lookup(s.reports, a.listed.report), ok, raced, s.userKeys, s.recorded);
      }
    case InlineEnds => InlineEndKeeps(s, a, slots, e);
    case Overdue(_) => OverdueKeeps(s, a, slots, e);
    case _ => DrainEventKeeps(s, a, slots, e);
  }

  lemma DrainEventKeeps(s: State, a: Act, slots: Slots, e: Event)
    requires (e.TerminalSent? || e.TerminalAnswered? || e.RemoteMoves?) && Inv(a, s.userKeys, s.recorded)
    ensures Inv(Local(s, a, slots, e).1, s.userKeys, s.recorded)
  {
    match e
    case TerminalSent => SendKeeps(a, s.userKeys, s.recorded);
    case TerminalAnswered(fate) => if a.posting.Some? { AckKeeps(a, fate, s.userKeys, s.recorded); }
    case RemoteMoves(target) => RemoteKeeps(a, target, s.userKeys, s.recorded);
  }

  predicate BeforeCallEvent(e: Event) {
    e.TaskBegins? || e.CredentialAnswered? || e.StageClaims? || e.Preconditions?
  }

  predicate AfterCallEvent(e: Event) {
    e.ModelAnswered? || e.ProposalWritten? || e.StageReturns? || e.StageBroke? || e.StageRaised?
  }

  lemma BeforeCallEventKeeps(s: State, a: Act, slots: Slots, e: Event)
    requires BeforeCallEvent(e) && Inv(a, s.userKeys, s.recorded)
    ensures Inv(Local(s, a, slots, e).1, s.userKeys, s.recorded)
  {
    match e
    case TaskBegins(tokenOk) => if TaskOf(a).Queued? { BeginKeeps(a, tokenOk, s.userKeys, s.recorded); }
    case CredentialAnswered(c) => if TaskOf(a).Fetching? { KeyKeeps(a, c, s.userKeys, s.recorded); }
    case StageClaims => if TaskOf(a).Keyed? && a.row.Some? { StageClaimKeeps(a, s.userKeys, s.recorded); }
    case Preconditions(p) => if TaskOf(a).Claimed? { PreconditionsKeep(a, p, s.userKeys, s.recorded); }
  }

  lemma StageEndKeeps(s: State, a: Act, slots: Slots, e: Event)
    requires (e.StageReturns? || e.StageRaised?) && Inv(a, s.userKeys, s.recorded)
    ensures Inv(Local(s, a, slots, e).1, s.userKeys, s.recorded)
  {
    if e.StageReturns? && TaskOf(a).WroteProposal? && a.row.Some? {
      ReturnKeeps(a, s.userKeys, s.recorded);
    } else if e.StageRaised? && InStage(TaskOf(a)) {
      RaiseKeeps(a, s.userKeys, s.recorded);
    }
  }

  lemma StageBreakKeeps(s: State, a: Act, slots: Slots, e: Event)
    requires e.StageBroke? && Inv(a, s.userKeys, s.recorded)
    ensures Inv(Local(s, a, slots, e).1, s.userKeys, s.recorded)
  {
    if TaskOf(a).Claimed? || TaskOf(a).WroteFix? || TaskOf(a).WroteProposal? {
      ModelAnswerKeeps(a, false, s.userKeys, s.recorded);
    }
  }

  lemma AfterCallEventKeeps(s: State, a: Act, slots: Slots, e: Event)
    requires AfterCallEvent(e) && Inv(a, s.userKeys, s.recorded)
    ensures Inv(Local(s, a, slots, e).1, s.userKeys, s.recorded)
  {
    match e
    case ModelAnswered(valid) => if TaskOf(a).Calling? { ModelAnswerKeeps(a, valid, s.userKeys, s.recorded); }
    case ProposalWritten(id) => if TaskOf(a).WroteFix? { ProposalKeeps(a, id, s.userKeys, s.recorded); }
    case StageBroke => StageBreakKeeps(s, a, slots, e);
    case _ => StageEndKeeps(s, a, slots, e);
  }

  lemma TaskEventKeeps(s: State, a: Act, slots: Slots, e: Event)
    requires !TickEvent(e) && !BeforeCallEvent(e) && !AfterCallEvent(e) && Inv(a, s.userKeys, s.recorded)
    ensures Inv(Local(s, a, slots, e).1, s.userKeys, s.recorded)
  {
    match e
    case LocalRows(_) => LocalKeeps(s, a, slots, e);
    case LocalEnds(_) => LocalKeeps(s, a, slots, e);
    case TaskEnds(now) => if TaskOf(a).Over? { TaskEndKeeps(a, now, s.bound, s.userKeys, s.recorded); }
    case PrBegins(now) => if TaskOf(a).PrReady? { PrBeginKeeps(a, now, s.bound, s.userKeys, s.recorded); }
    case PrAnswered(answer, now) =>
      if TaskOf(a).PrCalling? && AnswerFits(answer, Lookup(s.recorded, a.listed.report), TaskOf(a).proposal) {
        PrOverKeeps(a, answer, now, s.bound, s.userKeys, s.recorded);
      }
  }

  /** Every event of an action keeps its invariant. */
  lemma EventKeeps(s: State, a: Act, slots: Slots, e: Event)
    requires Inv(a, s.userKeys, s.recorded)
    ensures Inv(Local(s, a, slots, e).1, s.userKeys, s.recorded)
  {
    if e.Listing? {
      ListingKeeps(s, a, slots, e);
    } else if TickEvent(e) {
      TickEventKeeps(s, a, slots, e);
    } else if BeforeCallEvent(e) {
      BeforeCallEventKeeps(s, a, slots, e);
    } else if AfterCallEvent(e) {
      AfterCallEventKeeps(s, a, slots, e);
    } else {
      TaskEventKeeps(s, a, slots, e);
    }
  }

  lemma RestartKeeps(a: Act, before: bool, after: bool, recorded: map<Rid, Pid>)
    requires Inv(a, before, recorded)
    ensures Inv(RestartAct(a), after, recorded)
  {
  }
}
