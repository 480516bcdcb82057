/** What the triage sync guarantees over every run. */
module TriageRuns {
  import opened Common
  import opened Ledger
  import opened Actions
  import opened TriageMachine
  import opened TriageInvariant
  import Workflow

  // ---------------------------------------------------------------- slots

  /** One held slot per report, and a bounded number of LLM slots. */
  ghost predicate SlotsOk(s: State) {
    && (forall i, j :: i in Held(s.acts) && j in Held(s.acts) && i != j ==>
          s.acts[i].hold.value.report != s.acts[j].hold.value.report)
    && |LlmHeld(s.acts)| <= Cap(s.maxConcurrent)
  }

  /** A slot is new only if no other action holds the report, and, for an
      LLM action, only below the limit; a held one is never relabelled. */
  predicate SlotStep(a: Act, b: Act, slots: Slots) {
    b.hold.Some? ==>
      if a.hold.Some? then b.hold.value.(task := Idle) == a.hold.value.(task := Idle)
      else b.hold.value.report !in slots.taken && (b.hold.value.llm ==> !slots.llmFull)
  }

  lemma HandleSlot(userKeys: bool, bound: int, a: Act, status: Option<Status>, slots: Slots, now: int)
    ensures SlotStep(a, Handle(userKeys, bound, a, status, slots, now), slots)
  {
    if a.row.Some? && a.tick.None? {
      RecoverSlot(userKeys, bound, a, status, slots, now);
    }
  }

  lemma RecoverSlot(userKeys: bool, bound: int, a: Act, status: Option<Status>, slots: Slots, now: int)
    requires a.row.Some?
    ensures SlotStep(a, Recover(userKeys, bound, a, status, slots, now), slots)
  {
  }

  lemma ListingEventSlot(s: State, a: Act, slots: Slots, e: Event)
    requires e.Listing? || e.ClaimAnswered?
    ensures SlotStep(a, Local(s, a, slots, e).1, slots)
  {
    if e.Listing? {
      HandleSlot(s.userKeys, s.bound, a, Lookup(s.reports, a.listed.report), slots, e.now);
    }
  }

  lemma TickEventSlot(s: State, a: Act, slots: Slots, e: Event)
    requires TickEvent(e) && !e.Listing? && !e.ClaimAnswered?
    ensures SlotStep(a, Local(s, a, slots, e).1, slots)
  {
  }

  lemma EventSlot(s: State, a: Act, slots: Slots, e: Event)
    ensures SlotStep(a, Local(s, a, slots, e).1, slots)
  {
    if e.Listing? || e.ClaimAnswered? {
      ListingEventSlot(s, a, slots, e);
    } else if TickEvent(e) {
      TickEventSlot(s, a, slots, e);
    }
  }

  /** Only the task's own events move, end or release it: nothing else
      overwrites it with a second task or frees its slot, timed out or not. */
  lemma LiveTaskKeepsItsSlot(s: State, a: Act, slots: Slots, e: Event)
    requires Inv(a, s.userKeys, s.recorded) && Live(a) && TickEvent(e)
    ensures Local(s, a, slots, e).1.hold == a.hold
  {
  }

  // --------------------------------------------------------- frozen rows

  /** The terminal part of a row. */
  predicate SameTerminal(r: Row, q: Row) {
    && q.phase.Finished?
    && r.kind == q.kind && r.report == q.report && r.outcome == q.outcome
    && r.message == q.message && r.steps == q.steps && r.proposal == q.proposal
  }

  predicate Frozen(a: Act, b: Act) {
    a.row.Some? && a.row.value.phase.Finished? ==> b.row.Some? && SameTerminal(a.row.value, b.row.value)
  }

  lemma ListingEventFreezes(s: State, a: Act, slots: Slots, e: Event)
    requires e.Listing? || e.ClaimAnswered?
    ensures Frozen(a, Local(s, a, slots, e).1)
  {
  }

  lemma InlineFreezes(s: State, a: Act, slots: Slots, e: Event)
    requires e.RunInline? || e.InlineEnds? || e.DispatchIntended?
    ensures Frozen(a, Local(s, a, slots, e).1)
  {
  }

  lemma DrainFreezes(a: Act, fate: Fate)
    ensures Frozen(a, DrainAnswer(a, fate)) && Frozen(a, DrainSend(a))
  {
  }

  lemma TickEventFreezes(s: State, a: Act, slots: Slots, e: Event)
    requires e.Overdue? || e.TerminalSent? || e.TerminalAnswered? || e.RemoteMoves?
    ensures Frozen(a, Local(s, a, slots, e).1)
  {
    if e.TerminalAnswered? {
      DrainFreezes(a, e.fate);
    } else if e.TerminalSent? {
      DrainFreezes(a, Answered);
    }
  }

  lemma EventFreezes(s: State, a: Act, slots: Slots, e: Event)
    ensures Frozen(a, Local(s, a, slots, e).1)
  {
    if e.Listing? || e.ClaimAnswered? {
      ListingEventFreezes(s, a, slots, e);
    } else if e.RunInline? || e.InlineEnds? || e.DispatchIntended? {
      InlineFreezes(s, a, slots, e);
    } else if TickEvent(e) {
      TickEventFreezes(s, a, slots, e);
    }
  }

  // ------------------------------------------------------ the whole state

  /** One action's invariant, by name: `Good` is opened for an action only
      where a proof names it. */
  predicate ActOk(s: State, id: Id) {
    id in s.acts ==> Inv(s.acts[id], s.userKeys, s.recorded)
  }

  ghost predicate Good(s: State) {
    SlotsOk(s) && forall id {:trigger ActOk(s, id)} :: ActOk(s, id)
  }

  lemma InitialIsGood(s: State)
    requires Initial(s)
    ensures Good(s)
  {
    assert Held(s.acts) == {} && LlmHeld(s.acts) == {};
  }

  lemma RecordedGrows(a: Act, userKeys: bool, before: map<Rid, Pid>, after: map<Rid, Pid>)
    requires Inv(a, userKeys, before)
    requires forall r <- before :: r in after && after[r] == before[r]
    ensures Inv(a, userKeys, after)
  {
  }

  lemma SlotsKept(s: State, id: Id, b: Act)
    requires SlotsOk(s) && id in s.acts && SlotStep(s.acts[id], b, SlotsFor(s, id))
    ensures SlotsOk(s.(acts := s.acts[id := b]))
  {
    var t := s.(acts := s.acts[id := b]);
    var a := s.acts[id];
    assert Held(t.acts) <= Held(s.acts) + {id};
    assert forall j <- Held(t.acts) :: j != id ==> t.acts[j] == s.acts[j] && j in Held(s.acts);
    forall i, j | i in Held(t.acts) && j in Held(t.acts) && i != j
      ensures t.acts[i].hold.value.report != t.acts[j].hold.value.report
    {
      if i == id || j == id {
        var o := if i == id then j else i;
        assert s.acts[o].hold.value.report in SlotsFor(s, id).taken;
        if a.hold.Some? {
          assert b.hold.value.(task := Idle).report == a.hold.value.report;
        }
      }
    }
    if b.hold.Some? && a.hold.None? && b.hold.value.llm {
      assert LlmHeld(t.acts) == LlmHeld(s.acts) + {id};
    } else {
      if b.hold.Some? && a.hold.Some? {
        assert b.hold.value.(task := Idle).llm == a.hold.value.llm;
      }
      assert LlmHeld(t.acts) <= LlmHeld(s.acts);
      Fewer(LlmHeld(t.acts), LlmHeld(s.acts));
    }
  }

  lemma {:induction false} Fewer(xs: set<Id>, ys: set<Id>)
    requires xs <= ys
    ensures |xs| <= |ys|
  {
    assert ys == xs + (ys - xs);
  }

  lemma StepKeepsGood(s: State, step: Step)
    requires Good(s)
    ensures Good(Next(s, step))
  {
    match step
    case Restart(userKeys) => RestartKeepsGood(s, userKeys);
    case StatusWritten(_, _) =>
      forall id ensures ActOk(Next(s, step), id) {
        assert ActOk(s, id);
      }
    case PrRecorded(report, proposal) => RecordKeepsGood(s, report, proposal);
    case On(id, event) => if id in s.acts { OwnStepKeepsGood(s, id, event); }
  }

  lemma RestartKeepsGood(s: State, userKeys: bool)
    requires Good(s)
    ensures Good(Next(s, Restart(userKeys)))
  {
    var t := Next(s, Restart(userKeys));
    assert Held(t.acts) == {} && LlmHeld(t.acts) == {};
    forall id | id in t.acts ensures ActOk(t, id) {
      assert ActOk(s, id);
      RestartKeeps(s.acts[id], s.userKeys, userKeys, s.recorded);
    }
  }

  lemma RecordKeepsGood(s: State, report: Rid, proposal: Pid)
    requires Good(s)
    ensures Good(Next(s, PrRecorded(report, proposal)))
  {
    var t := Next(s, PrRecorded(report, proposal));
    forall id | id in t.acts ensures ActOk(t, id) {
      assert ActOk(s, id);
      RecordedGrows(s.acts[id], s.userKeys, s.recorded, t.recorded);
    }
  }

  lemma OwnStepKeepsGood(s: State, id: Id, event: Event)
    requires Good(s) && id in s.acts
    ensures Good(Next(s, On(id, event)))
  {
    var t := Next(s, On(id, event));
    var b := Local(s, s.acts[id], SlotsFor(s, id), event).1;
    assert ActOk(s, id);
    EventKeeps(s, s.acts[id], SlotsFor(s, id), event);
    EventSlot(s, s.acts[id], SlotsFor(s, id), event);
    SlotsKept(s, id, b);
    assert t.acts == s.acts[id := b];
    assert SlotsOk(s.(acts := t.acts)) ==> SlotsOk(t);
    forall o | o in t.acts ensures ActOk(t, o) {
      assert ActOk(s, o);
    }
  }

  lemma {:induction false} RunIsGood(s: State, steps: seq<Step>)
    requires Good(s)
    ensures Good(Run(s, steps))
    decreases |steps|
  {
    if steps != [] {
      RunIsGood(s, steps[..|steps| - 1]);
      StepKeepsGood(Run(s, steps[..|steps| - 1]), steps[|steps| - 1]);
    }
  }

  lemma ReachableIsGood(s: State)
    requires Reachable(s)
    ensures Good(s)
  {
    var s0: State, steps: seq<Step> :| Initial(s0) && s == Run(s0, steps);
    InitialIsGood(s0);
    RunIsGood(s0, steps);
  }

  // ------------------------------------------------------- main results

  /** An action that must not be retried is dispatched at most once, asks for
      its credential at most once and calls a model at most once, however
      often the process dies; if its fix step was refused, no model was called. */
  lemma PaidActionRunsAtMostOnce(s: State, id: Id)
    requires Reachable(s) && id in s.acts && s.acts[id].row.Some? && s.acts[id].row.value.noAutoRetry
    ensures var t := s.acts[id].trace;
            t.dispatches <= 1 && t.credentials <= 1 && |t.calls| <= 1
    ensures FixRefused(s.acts[id].row.value) ==> s.acts[id].trace.calls == []
  {
    ReachableIsGood(s);
    assert ActOk(s, id);
  }

  /** Whatever the history of the per-user-keys gate, a paid action listed
      with `params.llm` reaches a model only on its requester's key and asks
      for that key at most once; and no paid model is ever reached on the
      environment's key while the gate is on. */
  lemma KeysAreNeverMixed(s: State, id: Id)
    requires Reachable(s) && id in s.acts
    ensures var a := s.acts[id];
            !a.listed.llm.Absent? && Paid(a.listed.kind) ==>
              (forall c <- a.trace.calls :: c.key.RequesterKey?) && a.trace.credentials <= 1
    ensures forall c <- s.acts[id].trace.calls :: c.key.EnvKey? && c.userKeys ==> !c.paid
  {
    ReachableIsGood(s);
    assert ActOk(s, id);
  }

  /** A finished compound has a legal step pair for its outcome; every PR call
      of it was made with the proposal of its durable checkpoint, one the
      action itself made; and `done` means the report's PR is recorded on it. */
  lemma CompoundIsConsistent(s: State, id: Id)
    requires Reachable(s) && id in s.acts && s.acts[id].row.Some? && s.acts[id].row.value.kind.FixAndOpenPr?
    ensures var a := s.acts[id]; var r := a.row.value;
            && (r.phase.Finished? ==> r.outcome.Some? && LegalSteps(r.steps, r.outcome.value))
            && (r.phase.Finished? && r.steps.fix.StepDone? ==> r.proposal.Some?)
            && (forall c <- a.trace.prCalls :: c.Some? && c == r.proposal && c.value in a.made.proposals)
            && (r.outcome == Some(Done) ==> r.report in s.recorded && r.proposal == Some(s.recorded[r.report]))
  {
    ReachableIsGood(s);
    assert ActOk(s, id);
  }

  /** The slots: one action per report, at most `max(1, limit)` LLM actions. */
  lemma SlotsAreBounded(s: State, i: Id, j: Id)
    requires Reachable(s) && i in s.acts && j in s.acts && i != j
    ensures s.acts[i].hold.Some? && s.acts[j].hold.Some? ==> s.acts[i].hold.value.report != s.acts[j].hold.value.report
    ensures |LlmHeld(s.acts)| <= (if s.maxConcurrent > 1 then s.maxConcurrent else 1)
  {
    ReachableIsGood(s);
    if s.acts[i].hold.Some? && s.acts[j].hold.Some? {
      assert i in Held(s.acts) && j in Held(s.acts);
    }
  }

  /** No step of another action, of the tick, of the expiry sweep or of the
      environment touches the slot of a live task: it is not given a second
      task and not freed before the task's own exit. */
  lemma LiveTaskIsAlone(s: State, step: Step, id: Id)
    requires Reachable(s) && id in s.acts && Live(s.acts[id])
    requires !step.Restart? && !(step.On? && step.id == id && !TickEvent(step.event))
    ensures id in Next(s, step).acts && Next(s, step).acts[id].hold == s.acts[id].hold
  {
    ReachableIsGood(s);
    assert ActOk(s, id);
    if step.On? && step.id == id {
      LiveTaskKeepsItsSlot(s, s.acts[id], SlotsFor(s, id), step.event);
    }
  }

  /** The trace counts a reopening exactly when the action's own step writes
      its report from `closed` to `triaged`. */
  lemma TraceCountsReopenings(s: State, a: Act, slots: Slots, e: Event)
    requires Inv(a, s.userKeys, s.recorded)
    ensures var (status, b) := Local(s, a, slots, e);
            b.trace.reopens == a.trace.reopens + (
              if Lookup(s.reports, a.listed.report) == Some(Workflow.Closed) && status == Some(Workflow.Triaged)
              then 1 else 0)
  {
    if !e.RunInline? {
      OnlyInlineReopens(s, a, slots, e);
    }
  }

  lemma OnlyInlineReopens(s: State, a: Act, slots: Slots, e: Event)
    requires !e.RunInline?
    ensures var (status, b) := Local(s, a, slots, e);
            && b.trace.reopens == a.trace.reopens
            && (Lookup(s.reports, a.listed.report) == Some(Workflow.Closed) ==> status == Some(Workflow.Closed))
  {
  }

  /** A `reopen` moves its report from `closed` to `triaged` once if its
      ledger outcome is `done`, and never otherwise; no other kind ever does. */
  lemma ReopenExactlyWhenDone(s: State, id: Id)
    requires Reachable(s) && id in s.acts
    ensures var a := s.acts[id];
            a.trace.reopens ==
            (if a.listed.kind.Reopen? && a.row.Some? && a.row.value.outcome == Some(Done) then 1 else 0)
  {
    ReachableIsGood(s);
    assert ActOk(s, id);
  }

  /** Every terminal POST of an action carries the row's own body, and an
      acknowledged one without a breach means sonicgrid holds that outcome. */
  lemma PostsAgree(s: State, id: Id)
    requires Reachable(s) && id in s.acts
    ensures var a := s.acts[id];
            && (forall b <- a.trace.posts :: a.row.Some? && a.row.value.outcome.Some? && b == TerminalBody(a.row.value))
            && (a.row.Some? && a.row.value.acked && !a.row.value.breach ==>
                  a.row.value.outcome.Some? && a.remote == Terminal(a.row.value.outcome.value))
  {
    ReachableIsGood(s);
    assert ActOk(s, id);
  }

  /** A terminal row is written once: no later run changes it. */
  lemma {:induction false} OutcomeIsWrittenOnce(s: State, steps: seq<Step>, id: Id)
    requires id in s.acts && s.acts[id].row.Some? && s.acts[id].row.value.phase.Finished?
    ensures var t := Run(s, steps);
            id in t.acts && t.acts[id].row.Some? && SameTerminal(s.acts[id].row.value, t.acts[id].row.value)
    decreases |steps|
  {
    if steps != [] {
      var t := Run(s, steps[..|steps| - 1]);
      OutcomeIsWrittenOnce(s, steps[..|steps| - 1], id);
      var step := steps[|steps| - 1];
      if step.On? && step.id in t.acts {
        EventFreezes(t, t.acts[step.id], SlotsFor(t, step.id), step.event);
      }
    }
  }
}
