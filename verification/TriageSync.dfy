/** The sync's handlers, written as the code is. Each one is a step of the
    machine; each keeps `Valid`, the invariant behind the run theorems; and each
    leaves alone every outcome and every grant already written, and every other
    action with its slot and task. Ledger rows, slots and tagged stage rows are
    kept together, one entry an action. */
module TriageSync {
  import opened Common
  import opened Ledger
  import opened Actions
  import opened TriageMachine
  import TriageRuns
  import TriageAuthority
  import TriageProgress
  import Workflow

  /** An event that changes one action, and its report's status only as `Local` says. */
  lemma StepIs(s: State, id: Id, e: Event, act: Act)
    requires id in s.acts
    requires Local(s, s.acts[id], SlotsFor(s, id), e) == (Lookup(s.reports, s.acts[id].listed.report), act)
    ensures Next(s, On(id, e)) == s.(acts := s.acts[id := act])
  {
    var report := s.acts[id].listed.report;
    if report in s.reports {
      assert s.reports == s.reports[report := s.reports[report]];
    }
  }

  /** The invariant of the run theorems, for every action. */
  ghost predicate Sound(s: State) {
    TriageRuns.Good(s) && TriageAuthority.AllAuth(s)
  }

  /** A finished outcome stands, a grant stands, and no other action is touched. */
  ghost predicate Kept(before: map<Id, Act>, after: map<Id, Act>, id: Id) {
    && before.Keys == after.Keys
    && (forall o <- before :: TriageRuns.Frozen(before[o], after[o]) && TriageAuthority.SameGrant(before[o], after[o]))
    && (forall o <- before :: o != id ==> after[o] == before[o])
  }

  lemma StepIsSound(s: State, id: Id, e: Event)
    requires Sound(s) && id in s.acts
    ensures Sound(Next(s, On(id, e))) && Kept(s.acts, Next(s, On(id, e)).acts, id)
  {
    TriageRuns.StepKeepsGood(s, On(id, e));
    TriageAuthority.StepAuth(s, On(id, e));
    StepIsKept(s, id, e);
  }

  lemma StepIsKept(s: State, id: Id, e: Event)
    requires TriageAuthority.AllAuth(s) && id in s.acts
    ensures Kept(s.acts, Next(s, On(id, e)).acts, id)
  {
    var b := Local(s, s.acts[id], SlotsFor(s, id), e).1;
    assert TriageAuthority.AuthOkAt(s, id);
    TriageRuns.EventFreezes(s, s.acts[id], SlotsFor(s, id), e);
    TriageAuthority.EventAuth(s, s.acts[id], SlotsFor(s, id), e);
    assert Next(s, On(id, e)).acts == s.acts[id := b];
  }

  /** All a handler has to show: that it wrote what the event says, for its action. */
  lemma Handled(s: State, t: State, id: Id, e: Event, act: Act)
    requires Sound(s) && id in s.acts && t == s.(acts := s.acts[id := act])
    requires Local(s, s.acts[id], SlotsFor(s, id), e) == (Lookup(s.reports, s.acts[id].listed.report), act)
    ensures t == Next(s, On(id, e)) && Sound(t) && Kept(s.acts, t.acts, id)
  {
    StepIs(s, id, e, act);
    StepIsSound(s, id, e);
  }

  lemma PrAnswerIs(s: State, id: Id, answer: PrAnswer, now: int)
    requires id in s.acts && s.acts[id].hold.Some? && s.acts[id].hold.value.task.PrCalling?
    requires AnswerFits(answer, Lookup(s.recorded, s.acts[id].listed.report), s.acts[id].hold.value.task.proposal)
    ensures Local(s, s.acts[id], SlotsFor(s, id), PrAnswered(answer, now)) ==
            (Lookup(s.reports, s.acts[id].listed.report),
             PrOver(s.acts[id], s.acts[id].hold.value.task.attempts, answer, now, s.bound))
  {
  }

  /** Only a row can hold a slot, have the tick in it, or be posted. */
  lemma HoldsARow(s: State, id: Id)
    requires Sound(s) && id in s.acts
    requires s.acts[id].hold.Some? || s.acts[id].tick.Some? || s.acts[id].posting.Some?
    ensures s.acts[id].row.Some?
  {
    assert TriageRuns.ActOk(s, id);
  }

  /** A claimed, unfinished row that nothing in this process works on. */
  predicate NeedsRecovery(a: Act) {
    a.tick.None? && a.row.Some? && !Live(a) && !a.row.value.phase.Reserved? && !a.row.value.phase.Finished?
  }

  class Sync {
    var userKeys: bool
    var maxConcurrent: int
    var bound: int
    var acts: map<Id, Act>
    var reports: map<Rid, Status>
    var recorded: map<Rid, Pid>

    ghost function Machine(): State
      reads this
    {
      State(userKeys, maxConcurrent, bound, acts, reports, recorded)
    }

    ghost predicate Valid()
      reads this
    {
      Sound(Machine())
    }

    /** Nothing in the ledger yet. */
    constructor (userKeys: bool, maxConcurrent: int, bound: int, listed: map<Id, Listed>, reports: map<Rid, Status>,
                 recorded: map<Rid, Pid>)
      ensures Initial(Machine()) && Valid() && acts.Keys == listed.Keys
    {
      this.userKeys, this.maxConcurrent, this.bound := userKeys, maxConcurrent, bound;
      this.acts := map id | id in listed :: NewAct(listed[id]);
      this.reports, this.recorded := reports, recorded;
      new;
      TriageRuns.InitialIsGood(Machine());
    }

    // ------------------------------------------------------------- slots

    /** Whether another action's slot is on the report. */
    method Taken(id: Id, report: Rid) returns (taken: bool)
      requires id in acts
      ensures taken <==> report in SlotsFor(Machine(), id).taken
    {
      var others := acts.Keys - {id};
      while others != {}
        invariant others <= acts.Keys - {id}
        invariant forall o <- acts.Keys - others ::
                    o != id && acts[o].hold.Some? ==> acts[o].hold.value.report != report
        decreases others
      {
        var other :| other in others;
        others := others - {other};
        if acts[other].hold.Some? && acts[other].hold.value.report == report {
          assert other in Held(acts);
          return true;
        }
      }
      return false;
    }

    method CountLlm() returns (running: nat)
      ensures running == |LlmHeld(acts)|
    {
      var others, seen := acts.Keys, {};
      while others != {}
        invariant others <= acts.Keys
        invariant seen == LlmHeld(acts) - others
        decreases others
      {
        var other :| other in others;
        others := others - {other};
        if acts[other].hold.Some? && acts[other].hold.value.llm {
          seen := seen + {other};
        }
      }
      assert seen == LlmHeld(acts);
      running := |seen|;
    }

    /** `_try_hold`: the report's other holder first, then the LLM slots. */
    method TryHold(id: Id, report: Rid, llm: bool) returns (ok: bool)
      requires id in acts
      modifies this`acts
      ensures ok == old(CanHold(acts[id], report, llm, SlotsFor(Machine(), id)))
      ensures ok <==> old(acts)[id].hold.Some? || TriageProgress.SlotFree(old(Machine()), id, report, llm)
      ensures acts == if ok then old(acts)[id := TakeHold(old(acts)[id], report, llm)] else old(acts)
    {
      TriageProgress.SlotIs(Machine(), id, report, llm);
      if acts[id].hold.Some? {
        assert acts == acts[id := acts[id]];
        return true;
      }
      var taken := Taken(id, report);
      if taken {
        return false;
      }
      var running := CountLlm();
      if llm && running >= (if maxConcurrent >= 1 then maxConcurrent else 1) {
        return false;
      }
      acts := acts[id := acts[id].(hold := Some(Hold(report, llm, Idle)))];
      return true;
    }

    /** `_release` from outside a task: only a slot without a live task. */
    method Free(id: Id)
      requires id in acts
      modifies this`acts
      ensures acts == old(acts)[id := Release(old(acts)[id])]
    {
      var a := acts[id];
      if a.hold.Some? && a.hold.value.task.Idle? {
        a := a.(hold := None);
      }
      acts := acts[id := a];
    }

    method SetTask(id: Id, task: Task)
      requires id in acts
      modifies this`acts
      ensures acts == old(acts)[id := Go(old(acts)[id], task)]
    {
      var a := acts[id];
      if a.hold.Some? {
        a := a.(hold := Some(a.hold.value.(task := task)));
      }
      acts := acts[id := a];
    }

    method SetTick(id: Id, tick: Option<Tick>)
      requires id in acts
      modifies this`acts
      ensures acts == old(acts)[id := old(acts)[id].(tick := tick)]
    {
      acts := acts[id := acts[id].(tick := tick)];
    }

    // ------------------------------------------------------------ ledger

    /** `_finish`: the outcome once, or a late note. */
    method FinishAction(id: Id, r: Result, expected: Option<Phase>) returns (finished: bool)
      requires id in acts && acts[id].row.Some?
      modifies this`acts
      ensures acts == old(acts)[id := old(acts)[id].(row := Some(Settle(old(acts)[id].row.value, r, expected)))]
      ensures finished <==> FinishRow(old(acts)[id].row.value, r, expected).Some?
    {
      var row := acts[id].row.value;
      finished := !row.phase.Finished? && (expected.None? || row.phase == expected.value);
      if finished {
        row := row.(phase := Finished, outcome := Some(r.outcome), message := r.message, steps := r.steps);
        if r.prUrl.Some? {
          row := row.(prUrl := r.prUrl);
        }
      } else {
        row := row.(late := Some(LateOutcome(r.outcome)));
      }
      acts := acts[id := acts[id].(row := Some(row))];
    }

    method ExpireIfOverdue(id: Id, now: int) returns (finished: bool)
      requires id in acts && acts[id].row.Some?
      modifies this`acts
      ensures acts == old(acts)[id := old(acts)[id].(row := Some(Expire(old(acts)[id].row.value, now, bound).0))]
      ensures finished == Expire(old(acts)[id].row.value, now, bound).1
    {
      var row := acts[id].row.value;
      if row.phase.Finished? {
        assert acts == acts[id := acts[id]];
        return true;
      }
      if row.intentAt.Some? && now - row.intentAt.value >= bound {
        var _ := FinishAction(id, TimeoutResult(row), None);
        return true;
      }
      assert acts == acts[id := acts[id]];
      return false;
    }

    /** `expire_overdue`: every claimed row past the bound ends as timed out, no
        other changes, and no slot is given up. */
    method ExpireOverdue(now: int)
      requires Valid()
      modifies this`acts
      ensures Valid() && acts.Keys == old(acts).Keys
      ensures forall id <- acts :: acts[id] == Sweep(old(acts)[id], now, bound) && acts[id].hold == old(acts)[id].hold
    {
      var todo := acts.Keys;
      while todo != {}
        invariant Valid() && acts.Keys == old(acts).Keys && todo <= acts.Keys
        invariant forall id <- todo :: acts[id] == old(acts)[id]
        invariant forall id <- acts.Keys - todo :: acts[id] == Sweep(old(acts)[id], now, bound)
        decreases todo
      {
        var id :| id in todo;
        todo := todo - {id};
        SweepOne(id, now);
      }
    }

    method SweepOne(id: Id, now: int)
      requires Valid() && id in acts
      modifies this`acts
      ensures Valid() && acts == old(acts)[id := Sweep(old(acts)[id], now, bound)]
    {
      ghost var s := Machine();
      assert acts == acts[id := acts[id]];
      if acts[id].row.Some? {
        var phase := acts[id].row.value.phase;
        if phase.Intent? || phase.Dispatched? || phase.FixDone? {
          var _ := ExpireIfOverdue(id, now);
        }
      }
      Handled(s, Machine(), id, Overdue(now), acts[id]);
    }

    // ---------------------------------------------------------- handlers

    /** `_dispatch`, with its slot held by the caller. */
    method DispatchAction(id: Id, from: Phase)
      requires id in acts && acts[id].row.Some?
      modifies this`acts
      ensures acts == old(acts)[id := Dispatch(old(acts)[id], from)]
    {
      SetTick(id, None);
      var a := acts[id];
      var row := a.row.value;
      if row.phase != from {
        Free(id);
        return;
      }
      acts := acts[id := a.(row := Some(row.(phase := Dispatched)),
                            trace := a.trace.(dispatches := a.trace.dispatches + 1))];
      if Llm(row.kind) {
        SetTask(id, Queued);
      } else if row.kind.OpenPr? {
        SetTask(id, PrReady);
      } else {
        SetTick(id, Some(InlineStart));
      }
    }

    /** The claim was granted: authorize, then refuse or write the intent. */
    method StartGranted(id: Id, ctx: Context, now: int)
      requires id in acts
      modifies this`acts
      ensures acts == old(acts)[id := Claim(userKeys, old(acts)[id], ctx,
                                            old(Lookup(reports, acts[id].listed.report)), now)]
    {
      var a := acts[id];
      SetTick(id, None);
      if a.row.None? || a.listed.report !in reports {
        Free(id);
        return;
      }
      var row := a.row.value;
      var auth := Authorize(userKeys, a.listed, ctx, reports[a.listed.report]);
      if auth.Refuse? {
        var _ := FinishAction(id, auth.result, Some(Reserved));
        Free(id);
      } else if !row.phase.Reserved? {
        Free(id);
      } else {
        acts := acts[id := a.(row := Some(row.(phase := Intent, intentAt := Some(now), pin := auth.pin,
                                               local := auth.local, noAutoRetry := auth.noAutoRetry,
                                               requesterKey := auth.requesterKey)),
                              tick := Some(Intended))];
      }
    }

    method ClaimAnswerTaken(id: Id, fate: Fate, ctx: Context, now: int)
      requires id in acts
      modifies this`acts
      ensures acts == old(acts)[id := ClaimAnswer(userKeys, old(acts)[id], fate, ctx,
                                                  old(Lookup(reports, acts[id].listed.report)), now)]
    {
      var a := acts[id];
      var ok := a.remote.Pending? || a.remote.RemoteClaimed?;
      if (fate.Answered? || fate.AnswerLost?) && ok {
        a := a.(remote := RemoteClaimed);
      }
      acts := acts[id := a];
      if fate.Answered? && ok {
        StartGranted(id, ctx, now);
        return;
      }
      if (fate.NotFound? || fate.Answered? || fate.Conflict?) && a.row.Some? && a.row.value.phase.Reserved? {
        a := a.(row := None);
      }
      acts := acts[id := a.(tick := None)];
      Free(id);
    }

    /** `_claim_and_start` after sonicgrid answered the `claimed` POST. */
    method ClaimAndStart(id: Id, fate: Fate, ctx: Context, now: int)
      requires Valid() && id in acts && acts[id].tick == Some(Posting)
      modifies this`acts
      ensures Valid() && Kept(old(acts), acts, id)
      ensures Machine() == Next(old(Machine()), On(id, ClaimAnswered(fate, ctx, now)))
    {
      ClaimAnswerTaken(id, fate, ctx, now);
      Handled(old(Machine()), Machine(), id, ClaimAnswered(fate, ctx, now), acts[id]);
    }

    /** The tick goes on to dispatch what it has just been granted. */
    method DispatchGranted(id: Id)
      requires Valid() && id in acts && acts[id].tick == Some(Intended)
      modifies this`acts
      ensures Valid() && Kept(old(acts), acts, id)
      ensures Machine() == Next(old(Machine()), On(id, DispatchIntended))
    {
      HoldsARow(Machine(), id);
      DispatchAction(id, Intent);
      Handled(old(Machine()), Machine(), id, DispatchIntended, acts[id]);
    }

    method ApplyFound(id: Id, found: StageResult)
      requires id in acts && acts[id].row.Some?
      modifies this`acts
      ensures acts == old(acts)[id := ApplyEvidence(old(acts)[id], found, old(SlotsFor(Machine(), id)))]
    {
      var row := acts[id].row.value;
      if found.Finish? {
        var _ := FinishAction(id, found.result, Some(row.phase));
        return;
      }
      ghost var slots := SlotsFor(Machine(), id);
      acts := acts[id := acts[id].(row := Some(row.(phase := FixDone, proposal := Some(found.proposal),
                                                    steps := FixStep(StepDone))))];
      SameSlots(old(acts), acts, id);
      assert SlotsFor(Machine(), id) == slots;
      var held := TryHold(id, row.report, false);
      if held {
        SetTask(id, PrReady);
      }
    }

    /** The slots seen by one action do not depend on that action's row. */
    lemma SameSlots(before: map<Id, Act>, after: map<Id, Act>, id: Id)
      requires id in before && id in after && after == before[id := after[id]] && after[id].hold == before[id].hold
      ensures Held(after) == Held(before) && LlmHeld(after) == LlmHeld(before)
      ensures forall o <- Held(before) :: o != id ==> after[o] == before[o]
      ensures SlotsFor(Machine().(acts := after), id) == SlotsFor(Machine().(acts := before), id)
    {
      assert Held(after) == Held(before);
      assert LlmHeld(after) == LlmHeld(before);
    }

    /** `_recover`, for a row whose next step spends nothing: run it again. */
    method ResumeStep(id: Id, now: int)
      requires id in acts && acts[id].row.Some? && !TimedOut(acts[id].row.value, now, bound)
      requires var row := acts[id].row.value; row.phase.FixDone? || (row.phase.Dispatched? && !Llm(row.kind))
      modifies this`acts
      ensures acts == old(acts)[id := Recover(userKeys, bound, old(acts)[id],
                                              old(Lookup(reports, acts[id].listed.report)),
                                              old(SlotsFor(Machine(), id)), now)]
    {
      var row := acts[id].row.value;
      assert acts == acts[id := acts[id]];
      var held := TryHold(id, row.report, false);
      if held {
        if row.phase.FixDone? || row.kind.OpenPr? {
          SetTask(id, PrReady);
        } else {
          SetTick(id, Some(InlineStart));
        }
      }
    }

    /** `_recover`, for a row whose stage left no proof of how it ended. */
    method RecoverUnproved(id: Id, now: int)
      requires id in acts && acts[id].row.Some? && !TimedOut(acts[id].row.value, now, bound)
      requires var row := acts[id].row.value;
               && (row.phase.Intent? || (row.phase.Dispatched? && Llm(row.kind)))
               && Evidence(row.kind, acts[id].made).None?
      modifies this`acts
      ensures acts == old(acts)[id := Recover(userKeys, bound, old(acts)[id],
                                              old(Lookup(reports, acts[id].listed.report)),
                                              old(SlotsFor(Machine(), id)), now)]
    {
      var row := acts[id].row.value;
      var llm := Llm(row.kind);
      assert acts == acts[id := acts[id]];
      if row.phase.Dispatched? && StageClaimHeld(Lookup(reports, acts[id].listed.report)) {
        return;
      }
      if row.phase.Intent? && userKeys && Paid(row.kind) && !row.requesterKey {
        var _ := FinishAction(id, StepResult(row.kind, Refused, NotPermitted(Legacy)), Some(row.phase));
        return;
      }
      if row.noAutoRetry {
        var _ := FinishAction(id, UnconfirmedFailure(row.kind), Some(row.phase));
        return;
      }
      var held := TryHold(id, row.report, llm);
      if held {
        DispatchAction(id, row.phase);
      }
    }

    method RecoverRow(id: Id, now: int)
      requires id in acts && acts[id].row.Some?
      modifies this`acts
      ensures acts == old(acts)[id := Recover(userKeys, bound, old(acts)[id],
                                              old(Lookup(reports, acts[id].listed.report)),
                                              old(SlotsFor(Machine(), id)), now)]
    {
      var row := acts[id].row.value;
      if TimedOut(row, now, bound) {
        var _ := FinishAction(id, TimeoutResult(row), None);
      } else if row.phase.FixDone? || (row.phase.Dispatched? && !Llm(row.kind)) {
        ResumeStep(id, now);
      } else if row.phase.Intent? || row.phase.Dispatched? {
        var found := Evidence(row.kind, acts[id].made);
        if found.Some? {
          ApplyFound(id, found.value);
        } else {
          RecoverUnproved(id, now);
        }
      } else {
        assert acts == acts[id := acts[id]];
      }
    }

    /** `_recover`: the recovery table. */
    method RecoverAction(id: Id, now: int)
      requires Valid() && id in acts && NeedsRecovery(acts[id])
      modifies this`acts
      ensures Valid() && Kept(old(acts), acts, id)
      ensures Machine() == Next(old(Machine()), On(id, Listing(now)))
    {
      RecoverRow(id, now);
      Handled(old(Machine()), Machine(), id, Listing(now), acts[id]);
    }

    /** What a listing does with any other action. */
    method HandleOther(id: Id, now: int)
      requires id in acts && !NeedsRecovery(acts[id])
      modifies this`acts
      ensures acts == old(acts)[id := Handle(userKeys, bound, old(acts)[id],
                                             old(Lookup(reports, acts[id].listed.report)),
                                             old(SlotsFor(Machine(), id)), now)]
    {
      var a := acts[id];
      assert acts == acts[id := a];
      if a.tick.Some? {
        return;
      }
      if a.row.None? {
        if a.listed.report in reports {
          var held := TryHold(id, a.listed.report, Llm(a.listed.kind));
          if held {
            acts := acts[id := acts[id].(row := Some(NewRow(a.listed.kind, a.listed.report)), tick := Some(Posting))];
          }
        }
        return;
      }
      var row := a.row.value;
      if row.phase.Finished? || Live(a) {
        if Live(a) && !row.phase.Finished? && TimedOut(row, now, bound) {
          var _ := FinishAction(id, TimeoutResult(row), None);
        }
      } else {
        var held := TryHold(id, row.report, Llm(row.kind));
        if held {
          SetTick(id, Some(Posting));
        }
      }
    }

    /** `_handle`, for one action of the listing. */
    method HandleListed(id: Id, now: int)
      requires Valid() && id in acts
      modifies this`acts
      ensures Valid() && Kept(old(acts), acts, id)
      ensures Machine() == Next(old(Machine()), On(id, Listing(now)))
    {
      if NeedsRecovery(acts[id]) {
        RecoverAction(id, now);
      } else {
        HandleOther(id, now);
        Handled(old(Machine()), Machine(), id, Listing(now), acts[id]);
      }
    }

    /** `_run_task` after its stage returned. */
    method EndTask(id: Id, now: int)
      requires Valid() && id in acts && acts[id].hold.Some? && acts[id].hold.value.task.Over?
      modifies this`acts
      ensures Valid() && Kept(old(acts), acts, id)
      ensures Machine() == Next(old(Machine()), On(id, TaskEnds(now)))
    {
      HoldsARow(Machine(), id);
      StageReturned(id, acts[id].hold.value.task.result, now);
      Handled(old(Machine()), Machine(), id, TaskEnds(now), acts[id]);
    }

    method StageReturned(id: Id, r: StageResult, now: int)
      requires id in acts && acts[id].row.Some?
      modifies this`acts
      ensures acts == old(acts)[id := TaskOver(old(acts)[id], r, now, bound)]
    {
      var finished := ExpireIfOverdue(id, now);
      var row := acts[id].row.value;
      if finished {
        var late := if r.Finish? then LateOutcome(r.result.outcome) else LateFix;
        acts := acts[id := acts[id].(row := Some(row.(late := Some(late))), hold := None)];
      } else if r.Finish? {
        var _ := FinishAction(id, r.result, Some(Dispatched));
        acts := acts[id := acts[id].(hold := None)];
      } else if row.phase.Dispatched? {
        acts := acts[id := acts[id].(row := Some(row.(phase := FixDone, proposal := Some(r.proposal),
                                                      steps := FixStep(StepDone))))];
        SetTask(id, PrReady);
      } else {
        acts := acts[id := acts[id].(row := Some(row.(late := Some(LateFix))), hold := None)];
      }
    }

    /** `_run_pr` after the open-pr call answered. */
    method EndPr(id: Id, answer: PrAnswer, now: int)
      requires Valid() && id in acts && acts[id].hold.Some? && acts[id].hold.value.task.PrCalling?
      requires AnswerFits(answer, Lookup(recorded, acts[id].listed.report), acts[id].hold.value.task.proposal)
      modifies this`acts
      ensures Valid() && Kept(old(acts), acts, id)
      ensures Machine() == Next(old(Machine()), On(id, PrAnswered(answer, now)))
    {
      HoldsARow(Machine(), id);
      PrAnswerIs(Machine(), id, answer, now);
      PrReturned(id, acts[id].hold.value.task.attempts, answer, now);
      Handled(old(Machine()), Machine(), id, PrAnswered(answer, now), acts[id]);
    }

    method PrReturned(id: Id, attempts: nat, answer: PrAnswer, now: int)
      requires id in acts && acts[id].row.Some?
      modifies this`acts
      ensures acts == old(acts)[id := PrOver(old(acts)[id], attempts, answer, now, bound)]
    {
      if answer.Broken? {
        acts := acts[id := acts[id].(hold := None)];
        return;
      }
      var step := PrOutcome(answer, attempts);
      var finished := ExpireIfOverdue(id, now);
      var row := acts[id].row.value;
      if finished {
        row := row.(late := Some(if step.state.Some? then LateOutcome(step.state.value) else LatePending));
        acts := acts[id := acts[id].(row := Some(row))];
      } else if step.state.None? {
        if row.phase == PrPhase(row.kind) {
          acts := acts[id := acts[id].(row := Some(row.(attempts := step.attempts)))];
        }
      } else {
        var _ := FinishAction(id, PrResult(row, step), Some(PrPhase(row.kind)));
      }
      acts := acts[id := acts[id].(hold := None)];
    }

    /** `reopen`: the report and the outcome in one transaction; false when the report was not closed. */
    method ReopenReport(id: Id) returns (held: bool)
      requires id in acts && acts[id].row.Some? && acts[id].row.value.kind.Reopen?
      modifies this`acts, this`reports
      ensures held <==> old(Lookup(reports, acts[id].listed.report)) == Some(Workflow.Closed)
      ensures held ==>
                var (status, act) := Inline(old(acts)[id], Some(Workflow.Closed), true, false);
                && status.Some? && reports == old(reports)[old(acts)[id].listed.report := status.value]
                && acts == old(acts)[id := act]
      ensures !held ==> acts == old(acts) && reports == old(reports)
    {
      var report := acts[id].listed.report;
      if report !in reports || !reports[report].Closed? {
        return false;
      }
      assert reports == reports[report := reports[report]];
      SetTick(id, None);
      var a := acts[id];
      if a.row.value.phase.Dispatched? {
        reports := reports[report := Workflow.Triaged];
        acts := acts[id := a.(row := Some(a.row.value.(phase := Finished, outcome := Some(Done), steps := NoSteps,
                                                       message := Reopened)),
                              trace := a.trace.(reopens := a.trace.reopens + 1))];
      }
      Free(id);
      return true;
    }

    /** `_run_inline`. */
    method InlineKind(id: Id, ok: bool, raced: bool)
      requires Valid() && id in acts && acts[id].tick == Some(InlineStart)
      modifies this`acts, this`reports
      ensures Valid() && Kept(old(acts), acts, id)
      ensures Machine() == Next(old(Machine()), On(id, RunInline(ok, raced)))
    {
      HoldsARow(Machine(), id);
      StepIsSound(Machine(), id, RunInline(ok, raced));
      RunKind(id, ok, raced);
    }

    method RunKind(id: Id, ok: bool, raced: bool)
      requires id in acts && acts[id].tick == Some(InlineStart) && acts[id].row.Some?
      modifies this`acts, this`reports
      ensures Machine() == Next(old(Machine()), On(id, RunInline(ok, raced)))
    {
      var report := acts[id].listed.report;
      var row := acts[id].row.value;
      assert report in reports ==> reports == reports[report := reports[report]];
      if row.kind.Reopen? {
        var held := ReopenReport(id);
        if !held {
          var why := if report in reports then Precondition else NoReport;
          SetTick(id, Some(InlineOver(Result(Refused, NotPermitted(why), NoSteps, None))));
        }
        return;
      }
      var result := ModeOrClose(report, row.kind, ok, raced);
      SetTick(id, Some(InlineOver(result)));
    }

    /** `set_mode`, and the compare-and-set of `close`. */
    method ModeOrClose(report: Rid, kind: Kind, ok: bool, raced: bool) returns (r: Result)
      requires !kind.Reopen?
      modifies this`reports
      ensures forall a: Act :: a.row.Some? && a.row.value.kind == kind ==>
                var (status, act) := Inline(a, old(Lookup(reports, report)), ok, raced);
                && act == a.(tick := Some(InlineOver(r)))
                && reports == if status.Some? then old(reports)[report := status.value] else old(reports)
    {
      if report !in reports {
        return Result(Refused, NotPermitted(NoReport), NoSteps, None);
      }
      assert reports == reports[report := reports[report]];
      if kind.SetMode? {
        return if ok then Result(Done, ModeSet, NoSteps, None) else Result(Failed, InlineFailed, NoSteps, None);
      }
      if reports[report].Closed? {
        return Result(Done, ClosedNow, NoSteps, None);
      }
      if !Workflow.PatchAccepts(reports[report], Workflow.Closed) {
        return Result(Refused, NotPermitted(Precondition), NoSteps, None);
      }
      if !ok {
        return Result(Failed, InlineFailed, NoSteps, None);
      }
      if raced {
        return Result(Refused, RacedUpdate, NoSteps, None);
      }
      reports := reports[report := Workflow.Closed];
      return Result(Done, ClosedNow, NoSteps, None);
    }

    /** `_drain`, for one answered terminal POST. */
    method TerminalPosted(id: Id, fate: Fate)
      requires Valid() && id in acts && acts[id].posting.Some?
      modifies this`acts
      ensures Valid() && Kept(old(acts), acts, id)
      ensures Machine() == Next(old(Machine()), On(id, TerminalAnswered(fate)))
    {
      HoldsARow(Machine(), id);
      DrainAnswered(id, fate);
      Handled(old(Machine()), Machine(), id, TerminalAnswered(fate), acts[id]);
    }

    method DrainAnswered(id: Id, fate: Fate)
      requires id in acts && acts[id].posting.Some? && acts[id].row.Some?
      modifies this`acts
      ensures acts == old(acts)[id := DrainAnswer(old(acts)[id], fate)]
    {
      var a := acts[id];
      var body := a.posting.value;
      var row := a.row.value;
      a := a.(posting := None);
      var current := if a.remote.Terminal? then Some(a.remote.outcome) else None;
      if fate.Answered? || fate.AnswerLost? {
        var accepted := a.remote.RemoteClaimed? || (a.remote.Pending? && body.outcome.Refused?)
                        || current == Some(body.outcome);
        if accepted {
          a := a.(remote := Terminal(body.outcome));
        }
        if fate.Answered? {
          if accepted || (current.Some? && current == row.outcome) {
            row := row.(acked := true);
          } else {
            row := row.(acked := true, breach := true);
          }
        }
      } else if fate.Conflict? && current.Some? && current == row.outcome {
        row := row.(acked := true);
      } else if fate.BadRequest? || fate.NotFound? || fate.Conflict? {
        row := row.(acked := true, breach := true);
      }
      acts := acts[id := a.(row := Some(row))];
    }
  }
}
