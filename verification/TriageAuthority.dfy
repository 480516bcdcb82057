/** What a triage action may do for ever after its one authorization, and what
    its outcome says about the rows its stage left. */
module TriageAuthority {
  import opened Common
  import opened Ledger
  import opened Actions
  import opened TriageMachine
  import opened TriageInvariant
  import opened TriageRuns
  import Workflow

  // ----------------------------------------------------------- authorization

  /** Some authorization of the listed action granted exactly this. */
  ghost predicate Granted(l: Listed, grant: Authorization) {
    grant.Grant? && exists userKeys: bool, ctx: Context, status: Status :: Authorize(userKeys, l, ctx, status) == grant
  }

  /** What a row keeps of its grant. */
  function GrantOf(r: Row): Authorization {
    Grant(r.pin, r.local, r.noAutoRetry, r.requesterKey)
  }

  /** Before its grant an action has no pin and has done nothing; after it, it
      has the grant's. */
  ghost predicate AuthOk(a: Act) {
    && (a.row.None? || a.row.value.intentAt.None? ==> a.trace.dispatches == 0)
    && (a.row.Some? ==>
          var r := a.row.value;
          if r.intentAt.None?
          then (r.phase.Reserved? || r.phase.Finished?) && GrantOf(r) == Grant(None, None, false, false)
          else !r.phase.Reserved? && Granted(a.listed, GrantOf(r)))
  }

  ghost predicate AuthOkAt(s: State, id: Id) {
    id in s.acts ==> AuthOk(s.acts[id])
  }

  ghost predicate AllAuth(s: State) {
    forall id {:trigger AuthOkAt(s, id)} :: AuthOkAt(s, id)
  }

  /** What the grant fixed is as it was. */
  predicate SameGrant(a: Act, b: Act) {
    a.row.Some? && a.row.value.intentAt.Some? ==>
      && b.row.Some? && b.listed == a.listed
      && b.row.value.intentAt == a.row.value.intentAt && GrantOf(b.row.value) == GrantOf(a.row.value)
  }

  lemma DispatchAuth(a: Act, from: Phase)
    requires AuthOk(a) && a.row.Some? && !from.Reserved? && !from.Finished?
    ensures AuthOk(Dispatch(a, from)) && SameGrant(a, Dispatch(a, from))
  {
  }

  lemma SettleAuth(a: Act, r: Result, expected: Option<Phase>)
    requires AuthOk(a) && a.row.Some?
    ensures var b := a.(row := Some(Settle(a.row.value, r, expected)));
            AuthOk(b) && SameGrant(a, b)
  {
  }

  lemma EvidenceAuth(a: Act, found: StageResult, slots: Slots)
    requires AuthOk(a) && a.row.Some? && !a.row.value.phase.Reserved? && !a.row.value.phase.Finished?
    ensures AuthOk(ApplyEvidence(a, found, slots)) && SameGrant(a, ApplyEvidence(a, found, slots))
  {
    if found.Finish? {
      SettleAuth(a, found.result, Some(a.row.value.phase));
    }
  }

  lemma RecoverAuth(userKeys: bool, bound: int, a: Act, status: Option<Status>, slots: Slots, now: int)
    requires AuthOk(a) && a.row.Some? && !a.row.value.phase.Reserved? && !a.row.value.phase.Finished?
    ensures var b := Recover(userKeys, bound, a, status, slots, now);
            AuthOk(b) && SameGrant(a, b)
  {
    var row := a.row.value;
    var found := Evidence(row.kind, a.made);
    if TimedOut(row, now, bound) {
      SettleAuth(a, TimeoutResult(row), None);
    } else if row.phase.FixDone? || (row.phase.Dispatched? && !Llm(row.kind)) {
    } else if found.Some? {
      EvidenceAuth(a, found.value, slots);
    } else {
      UnprovedAuth(userKeys, bound, a, status, slots, now);
    }
  }

  lemma UnprovedAuth(userKeys: bool, bound: int, a: Act, status: Option<Status>, slots: Slots, now: int)
    requires AuthOk(a) && a.row.Some? && !TimedOut(a.row.value, now, bound)
    requires a.row.value.phase.Intent? || (a.row.value.phase.Dispatched? && Llm(a.row.value.kind))
    requires Evidence(a.row.value.kind, a.made).None?
    ensures var b := Recover(userKeys, bound, a, status, slots, now);
            AuthOk(b) && SameGrant(a, b)
  {
    var row := a.row.value;
    if row.phase.Dispatched? && StageClaimHeld(status) {
    } else if row.phase.Intent? && userKeys && Paid(row.kind) && !row.requesterKey {
      SettleAuth(a, StepResult(row.kind, Refused, NotPermitted(Legacy)), Some(row.phase));
    } else if row.noAutoRetry {
      SettleAuth(a, UnconfirmedFailure(row.kind), Some(row.phase));
    } else {
      DispatchAuth(TakeHold(a, row.report, Llm(row.kind)), row.phase);
    }
  }

  lemma ListingAuth(s: State, a: Act, slots: Slots, e: Event)
    requires AuthOk(a) && e.Listing?
    ensures AuthOk(Local(s, a, slots, e).1) && SameGrant(a, Local(s, a, slots, e).1)
  {
    if a.row.Some? && a.tick.None? {
      var row := a.row.value;
      SettleAuth(a, TimeoutResult(row), None);
      if !row.phase.Finished? && !row.phase.Reserved? {
        RecoverAuth(s.userKeys, s.bound, a, Lookup(s.reports, a.listed.report), slots, e.now);
      }
    }
  }

  lemma ClaimAuth(userKeys: bool, a: Act, ctx: Context, status: Option<Status>, now: int)
    requires AuthOk(a)
    ensures AuthOk(Claim(userKeys, a, ctx, status, now)) && SameGrant(a, Claim(userKeys, a, ctx, status, now))
  {
    if a.row.Some? && status.Some? {
      var auth := Authorize(userKeys, a.listed, ctx, status.value);
      if auth.Refuse? {
        SettleAuth(a, auth.result, Some(Reserved));
      }
    }
  }

  lemma AnswerAuth(userKeys: bool, a: Act, fate: Fate, ctx: Context, status: Option<Status>, now: int)
    requires AuthOk(a)
    ensures var b := ClaimAnswer(userKeys, a, fate, ctx, status, now);
            AuthOk(b) && SameGrant(a, b)
  {
    var b := a.(remote := Advance(a.remote, RemoteClaimed).0);
    ClaimAuth(userKeys, b, ctx, status, now);
  }

  lemma ClaimAnswerAuth(s: State, a: Act, slots: Slots, e: Event)
    requires AuthOk(a) && e.ClaimAnswered?
    ensures AuthOk(Local(s, a, slots, e).1) && SameGrant(a, Local(s, a, slots, e).1)
  {
    AnswerAuth(s.userKeys, a, e.fate, e.ctx, Lookup(s.reports, a.listed.report), e.now);
  }

  lemma InlineAuth(s: State, a: Act, slots: Slots, e: Event)
    requires AuthOk(a) && (e.DispatchIntended? || e.RunInline? || e.InlineEnds? || e.Overdue?)
    ensures AuthOk(Local(s, a, slots, e).1) && SameGrant(a, Local(s, a, slots, e).1)
  {
    if a.row.Some? {
      if e.DispatchIntended? {
        DispatchAuth(a, Intent);
      } else if e.InlineEnds? && a.tick.Some? && a.tick.value.InlineOver? {
        SettleAuth(a, a.tick.value.result, Some(Dispatched));
      } else if e.Overdue? {
        SettleAuth(a, TimeoutResult(a.row.value), None);
      }
    }
  }

  lemma AnsweredAuth(a: Act, fate: Fate)
    requires AuthOk(a)
    ensures AuthOk(DrainAnswer(a, fate)) && SameGrant(a, DrainAnswer(a, fate))
  {
  }

  lemma DrainAuth(s: State, a: Act, slots: Slots, e: Event)
    requires AuthOk(a) && (e.TerminalSent? || e.TerminalAnswered? || e.RemoteMoves?)
    ensures AuthOk(Local(s, a, slots, e).1) && SameGrant(a, Local(s, a, slots, e).1)
  {
    if e.TerminalAnswered? {
      AnsweredAuth(a, e.fate);
    }
  }

  lemma TaskEndAuth(a: Act, r: StageResult, now: int, bound: int)
    requires AuthOk(a)
    ensures AuthOk(TaskOver(a, r, now, bound)) && SameGrant(a, TaskOver(a, r, now, bound))
  {
    if a.row.Some? {
      if Expire(a.row.value, now, bound).1 {
        SettleAuth(a, TimeoutResult(a.row.value), None);
      } else if r.Finish? {
        SettleAuth(a, r.result, Some(Dispatched));
      }
    }
  }

  lemma PrOverAuth(a: Act, attempts: nat, answer: PrAnswer, now: int, bound: int)
    requires AuthOk(a)
    ensures AuthOk(PrOver(a, attempts, answer, now, bound)) && SameGrant(a, PrOver(a, attempts, answer, now, bound))
  {
    if a.row.Some? && !answer.Broken? {
      if Expire(a.row.value, now, bound).1 {
        SettleAuth(a, TimeoutResult(a.row.value), None);
      } else if PrOutcome(answer, attempts).state.Some? {
        SettleAuth(a, PrResult(a.row.value, PrOutcome(answer, attempts)), Some(PrPhase(a.row.value.kind)));
      }
    }
  }

  lemma PrBeginAuth(a: Act, now: int, bound: int)
    requires AuthOk(a)
    ensures AuthOk(PrBegin(a, now, bound)) && SameGrant(a, PrBegin(a, now, bound))
  {
    if a.row.Some? {
      SettleAuth(a, TimeoutResult(a.row.value), None);
    }
  }

  lemma EndAuth(s: State, a: Act, slots: Slots, e: Event)
    requires AuthOk(a) && (e.TaskEnds? || e.PrBegins? || e.PrAnswered?)
    ensures AuthOk(Local(s, a, slots, e).1) && SameGrant(a, Local(s, a, slots, e).1)
  {
    var task := TaskOf(a);
    if e.TaskEnds? && task.Over? {
      TaskEndAuth(a, task.result, e.now, s.bound);
    } else if e.PrBegins? {
      PrBeginAuth(a, e.now, s.bound);
    } else if e.PrAnswered? && task.PrCalling? {
      PrOverAuth(a, task.attempts, e.answer, e.now, s.bound);
    }
  }

  lemma StageAuth(s: State, a: Act, slots: Slots, e: Event)
    requires AuthOk(a) && (BeforeCallEvent(e) || AfterCallEvent(e) || e.LocalRows? || e.LocalEnds?)
    ensures AuthOk(Local(s, a, slots, e).1) && SameGrant(a, Local(s, a, slots, e).1)
  {
    var b := Local(s, a, slots, e).1;
    assert b.row == a.row && b.listed == a.listed && b.trace.dispatches == a.trace.dispatches;
  }

  lemma EventAuth(s: State, a: Act, slots: Slots, e: Event)
    requires AuthOk(a)
    ensures AuthOk(Local(s, a, slots, e).1) && SameGrant(a, Local(s, a, slots, e).1)
  {
    if e.Listing? {
      ListingAuth(s, a, slots, e);
    } else if e.ClaimAnswered? {
      ClaimAnswerAuth(s, a, slots, e);
    } else if e.DispatchIntended? || e.RunInline? || e.InlineEnds? || e.Overdue? {
      InlineAuth(s, a, slots, e);
    } else if e.TerminalSent? || e.TerminalAnswered? || e.RemoteMoves? {
      DrainAuth(s, a, slots, e);
    } else if e.TaskEnds? || e.PrBegins? || e.PrAnswered? {
      EndAuth(s, a, slots, e);
    } else {
      StageAuth(s, a, slots, e);
    }
  }

  lemma {:induction false} RunAuth(s: State, steps: seq<Step>)
    requires AllAuth(s)
    ensures var t := Run(s, steps);
            forall id <- s.acts :: id in t.acts && SameGrant(s.acts[id], t.acts[id])
    ensures AllAuth(Run(s, steps))
    decreases |steps|
  {
    if steps != [] {
      var t := Run(s, steps[..|steps| - 1]);
      RunAuth(s, steps[..|steps| - 1]);
      var step := steps[|steps| - 1];
      StepAuth(t, step);
      assert Run(s, steps) == Next(t, step);
    }
  }

  lemma StepAuth(s: State, step: Step)
    requires AllAuth(s)
    ensures var t := Next(s, step);
            && AllAuth(t)
            && (forall id <- s.acts :: id in t.acts && SameGrant(s.acts[id], t.acts[id]))
  {
    var t := Next(s, step);
    if step.On? && step.id in s.acts {
      assert AuthOkAt(s, step.id);
      EventAuth(s, s.acts[step.id], SlotsFor(s, step.id), step.event);
    }
    forall id ensures AuthOkAt(t, id) {
      assert AuthOkAt(s, id);
    }
  }

  lemma ReachableAuth(s: State)
    requires Reachable(s)
    ensures AllAuth(s)
  {
    var s0: State, steps: seq<Step> :| Initial(s0) && s == Run(s0, steps);
    RunAuth(s0, steps);
  }

  /** An action is authorized once: its pins, key mode and `no_auto_retry` are
      those that authorization granted, and no later run, restart or flip of
      the keys gate changes them. */
  lemma AuthorizedOnceForEver(s: State, steps: seq<Step>, id: Id)
    requires Reachable(s) && id in s.acts && s.acts[id].row.Some? && s.acts[id].row.value.intentAt.Some?
    ensures Granted(s.acts[id].listed, GrantOf(s.acts[id].row.value))
    ensures id in Run(s, steps).acts && SameGrant(s.acts[id], Run(s, steps).acts[id])
  {
    ReachableAuth(s);
    assert AuthOkAt(s, id);
    RunAuth(s, steps);
  }

  /** What a grant of any kind required of the listed action. */
  lemma GrantsNeedConsent(l: Listed, grant: Authorization)
    requires Granted(l, grant)
    ensures Consented(l, grant)
  {
  }

  /** The action's own consents, key and model cover what it may do. */
  predicate Consented(l: Listed, grant: Authorization)
    requires grant.Grant?
  {
    var pin := grant.pin;
    && !l.kind.OtherKind?
    && (l.kind.OpenPr? || l.kind.FixAndOpenPr? ==> l.repoWrite)
    && (l.kind.SetMode? ==> l.modeValid)
    && (pin.Some? <==> Paid(l.kind))
    && (pin.Some? && IsPaid(pin.value) && l.kind.FixAndOpenPr? ==> l.cloudSpend)
    && (grant.noAutoRetry <==> pin.Some? && (IsPaid(pin.value) || l.kind.AnalyzeCloud?))
    && (grant.requesterKey ==> pin.Some? && pin == RequesterPin(l.llm))
    && (pin.Some? && !grant.requesterKey ==> l.llm.Absent?)
    && (grant.local.Some? <==> l.kind.AnalyzeLocal?)
    && (grant.local.Some? ==> !IsPaid(grant.local.value.triage) && !IsPaid(grant.local.value.localize))
  }

  /** Over every run, whatever has been dispatched even once was consented to
      by its own listing: the repository, the spending, the model and the key;
      and a local analysis runs on two models that cost nothing. */
  lemma NothingRunsUnconsented(s: State, id: Id)
    requires Reachable(s) && id in s.acts && s.acts[id].trace.dispatches > 0
    ensures s.acts[id].row.Some? && Consented(s.acts[id].listed, GrantOf(s.acts[id].row.value))
  {
    ReachableAuth(s);
    assert AuthOkAt(s, id);
    GrantsNeedConsent(s.acts[id].listed, GrantOf(s.acts[id].row.value));
  }

  // ------------------------------------------------- outcomes and their rows

  predicate StageTask(t: Task) {
    t.Queued? || FixTask(t) || t.LocalRun? || t.Over?
  }

  /** No result but recovery's own says `Unconfirmed`, and a cloud analysis is
      `done` only with a proposal of its own. */
  predicate ResultOk(a: Act, r: Result) {
    && !r.message.Unconfirmed?
    && (a.row.Some? && a.row.value.kind.AnalyzeCloud? && r.outcome.Done? ==> a.made.proposals != [])
  }

  predicate RowsOk(a: Act) {
    && (TaskOf(a).Over? && TaskOf(a).result.Finish? ==> ResultOk(a, TaskOf(a).result.result))
    && (a.tick.Some? && a.tick.value.InlineOver? ==> !a.tick.value.result.message.Unconfirmed?)
    && (a.row.Some? ==>
          var r := a.row.value;
          && (r.kind.AnalyzeCloud? && r.outcome == Some(Done) ==> a.made.proposals != [])
          && (r.message.Unconfirmed? ==>
                r.phase.Finished? && Paid(r.kind) && FixEvidence(r.kind, a.made).None? && !StageTask(TaskOf(a))))
  }

  lemma SettleRows(a: Act, r: Result, expected: Option<Phase>)
    requires RowsOk(a) && a.row.Some? && ResultOk(a, r)
    ensures RowsOk(a.(row := Some(Settle(a.row.value, r, expected))))
  {
  }

  lemma DispatchRows(a: Act, from: Phase)
    requires RowsOk(a) && a.row.Some? && !from.Finished? && a.hold.Some?
    ensures RowsOk(Dispatch(a, from))
  {
  }

  lemma EvidenceRows(a: Act, slots: Slots)
    requires RowsOk(a) && a.row.Some? && !a.row.value.phase.Finished?
    requires Evidence(a.row.value.kind, a.made).Some?
    ensures RowsOk(ApplyEvidence(a, Evidence(a.row.value.kind, a.made).value, slots))
  {
    var found := Evidence(a.row.value.kind, a.made).value;
    if found.Finish? {
      SettleRows(a, found.result, Some(a.row.value.phase));
    }
  }

  lemma UnprovedRows(userKeys: bool, bound: int, a: Act, status: Option<Status>, slots: Slots, now: int)
    requires RowsOk(a) && a.row.Some? && !Live(a) && !TimedOut(a.row.value, now, bound)
    requires a.row.value.phase.Intent? || (a.row.value.phase.Dispatched? && Llm(a.row.value.kind))
    requires Evidence(a.row.value.kind, a.made).None? && (a.row.value.noAutoRetry ==> Paid(a.row.value.kind))
    ensures RowsOk(Recover(userKeys, bound, a, status, slots, now))
  {
    var row := a.row.value;
    if row.phase.Intent? && userKeys && Paid(row.kind) && !row.requesterKey {
      SettleRows(a, StepResult(row.kind, Refused, NotPermitted(Legacy)), Some(row.phase));
    } else if row.noAutoRetry {
      UnconfirmedRows(a);
    } else {
      DispatchRows(TakeHold(a, row.report, Llm(row.kind)), row.phase);
    }
  }

  lemma UnconfirmedRows(a: Act)
    requires RowsOk(a) && a.row.Some? && !Live(a) && Paid(a.row.value.kind) && !a.row.value.phase.Finished?
    requires Evidence(a.row.value.kind, a.made).None?
    ensures var row := a.row.value;
            RowsOk(a.(row := Some(Settle(row, UnconfirmedFailure(row.kind), Some(row.phase)))))
  {
  }

  lemma RecoverRows(userKeys: bool, bound: int, a: Act, status: Option<Status>, slots: Slots, now: int)
    requires RowsOk(a) && a.row.Some? && !Live(a) && (a.row.value.noAutoRetry ==> Paid(a.row.value.kind))
    requires !a.row.value.phase.Reserved? && !a.row.value.phase.Finished?
    ensures RowsOk(Recover(userKeys, bound, a, status, slots, now))
  {
    var row := a.row.value;
    if TimedOut(row, now, bound) {
      SettleRows(a, TimeoutResult(row), None);
    } else if row.phase.FixDone? || (row.phase.Dispatched? && !Llm(row.kind)) {
    } else if Evidence(row.kind, a.made).Some? {
      EvidenceRows(a, slots);
    } else {
      UnprovedRows(userKeys, bound, a, status, slots, now);
    }
  }

  lemma ListingRows(s: State, a: Act, slots: Slots, e: Event)
    requires Inv(a, s.userKeys, s.recorded) && RowsOk(a) && e.Listing?
    ensures RowsOk(Local(s, a, slots, e).1)
  {
    if a.row.Some? && a.tick.None? {
      var row := a.row.value;
      SettleRows(a, TimeoutResult(row), None);
      if !row.phase.Finished? && !row.phase.Reserved? && !Live(a) {
        RecoverRows(s.userKeys, s.bound, a, Lookup(s.reports, a.listed.report), slots, e.now);
      }
    }
  }

  lemma GrantRows(userKeys: bool, a: Act, ctx: Context, status: Option<Status>, now: int)
    requires RowsOk(a)
    ensures RowsOk(Claim(userKeys, a, ctx, status, now))
  {
    if a.row.Some? && status.Some? {
      var auth := Authorize(userKeys, a.listed, ctx, status.value);
      if auth.Refuse? {
        SettleRows(a, auth.result, Some(Reserved));
      }
    }
  }

  lemma AnswerRows(userKeys: bool, a: Act, fate: Fate, ctx: Context, status: Option<Status>, now: int)
    requires RowsOk(a)
    ensures RowsOk(ClaimAnswer(userKeys, a, fate, ctx, status, now))
  {
    var b := a.(remote := Advance(a.remote, RemoteClaimed).0);
    GrantRows(userKeys, b, ctx, status, now);
  }

  lemma ClaimRows(s: State, a: Act, slots: Slots, e: Event)
    requires RowsOk(a) && e.ClaimAnswered?
    ensures RowsOk(Local(s, a, slots, e).1)
  {
    AnswerRows(s.userKeys, a, e.fate, e.ctx, Lookup(s.reports, a.listed.report), e.now);
  }

  lemma InlineRows(s: State, a: Act, slots: Slots, e: Event)
    requires Inv(a, s.userKeys, s.recorded) && RowsOk(a)
    requires e.DispatchIntended? || e.RunInline? || e.InlineEnds? || e.Overdue?
    ensures RowsOk(Local(s, a, slots, e).1)
  {
    if a.row.Some? {
      if e.DispatchIntended? && a.hold.Some? {
        DispatchRows(a, Intent);
      } else if e.InlineEnds? && a.tick.Some? && a.tick.value.InlineOver? {
        SettleRows(a, a.tick.value.result, Some(Dispatched));
      } else if e.Overdue? {
        SettleRows(a, TimeoutResult(a.row.value), None);
      }
    }
  }

  lemma DrainRows(s: State, a: Act, slots: Slots, e: Event)
    requires RowsOk(a) && (e.TerminalSent? || e.TerminalAnswered? || e.RemoteMoves?)
    ensures RowsOk(Local(s, a, slots, e).1)
  {
    if e.TerminalAnswered? {
      AnsweredRows(a, e.fate);
    }
  }

  lemma AnsweredRows(a: Act, fate: Fate)
    requires RowsOk(a)
    ensures RowsOk(DrainAnswer(a, fate))
  {
  }

  lemma TaskEndRows(a: Act, now: int, bound: int)
    requires RowsOk(a) && TaskOf(a).Over?
    ensures RowsOk(TaskOver(a, TaskOf(a).result, now, bound))
  {
    if a.row.Some? {
      SettleRows(a, TimeoutResult(a.row.value), None);
      if TaskOf(a).result.Finish? {
        SettleRows(a, TaskOf(a).result.result, Some(Dispatched));
      }
    }
  }

  lemma PrBeginRows(a: Act, now: int, bound: int)
    requires RowsOk(a) && TaskOf(a).PrReady?
    ensures RowsOk(PrBegin(a, now, bound))
  {
    if a.row.Some? {
      SettleRows(a, TimeoutResult(a.row.value), None);
    }
  }

  lemma PrOverRows(a: Act, answer: PrAnswer, now: int, bound: int)
    requires RowsOk(a) && TaskOf(a).PrCalling? && (a.row.Some? ==> !a.row.value.kind.AnalyzeCloud?)
    ensures RowsOk(PrOver(a, TaskOf(a).attempts, answer, now, bound))
  {
    if a.row.Some? && !answer.Broken? {
      var step := PrOutcome(answer, TaskOf(a).attempts);
      if Expire(a.row.value, now, bound).1 {
        SettleRows(a, TimeoutResult(a.row.value), None);
      } else if step.state.Some? {
        SettleRows(a, PrResult(a.row.value, step), Some(PrPhase(a.row.value.kind)));
      }
    }
  }

  lemma PrRows(s: State, a: Act, slots: Slots, e: Event)
    requires RowsOk(a) && (e.PrBegins? || e.PrAnswered?)
    requires a.row.Some? && TaskOf(a).PrCalling? ==> !a.row.value.kind.AnalyzeCloud?
    ensures RowsOk(Local(s, a, slots, e).1)
  {
    if e.PrBegins? && TaskOf(a).PrReady? {
      PrBeginRows(a, e.now, s.bound);
    } else if e.PrAnswered? && TaskOf(a).PrCalling? {
      PrOverRows(a, e.answer, e.now, s.bound);
    }
  }

  lemma BeforeCallRows(s: State, a: Act, slots: Slots, e: Event)
    requires RowsOk(a) && BeforeCallEvent(e)
    ensures RowsOk(Local(s, a, slots, e).1)
  {
  }

  lemma AfterCallRows(s: State, a: Act, slots: Slots, e: Event)
    requires Inv(a, s.userKeys, s.recorded) && RowsOk(a) && AfterCallEvent(e)
    ensures RowsOk(Local(s, a, slots, e).1)
  {
  }

  lemma LocalStageRows(s: State, a: Act, slots: Slots, e: Event)
    requires Inv(a, s.userKeys, s.recorded) && RowsOk(a) && (e.LocalRows? || e.LocalEnds?)
    ensures RowsOk(Local(s, a, slots, e).1)
  {
  }

  lemma EventRows(s: State, a: Act, slots: Slots, e: Event)
    requires Inv(a, s.userKeys, s.recorded) && RowsOk(a)
    ensures RowsOk(Local(s, a, slots, e).1)
  {
    if e.Listing? {
      ListingRows(s, a, slots, e);
    } else if e.ClaimAnswered? {
      ClaimRows(s, a, slots, e);
    } else if e.DispatchIntended? || e.RunInline? || e.InlineEnds? || e.Overdue? {
      InlineRows(s, a, slots, e);
    } else if e.TerminalSent? || e.TerminalAnswered? || e.RemoteMoves? {
      DrainRows(s, a, slots, e);
    } else if e.TaskEnds? {
      if TaskOf(a).Over? {
        TaskEndRows(a, e.now, s.bound);
      }
    } else if e.PrBegins? || e.PrAnswered? {
      PrRows(s, a, slots, e);
    } else if BeforeCallEvent(e) {
      BeforeCallRows(s, a, slots, e);
    } else if AfterCallEvent(e) {
      AfterCallRows(s, a, slots, e);
    } else {
      LocalStageRows(s, a, slots, e);
    }
  }

  /** A crash adds no evidence. */
  lemma RestartRows(a: Act)
    requires RowsOk(a)
    ensures RowsOk(RestartAct(a))
  {
    var m := Interrupt(a.made);
    if a.row.Some? && a.row.value.message.Unconfirmed? {
      forall r | r in m.rows && !r.interrupted ensures r in a.made.rows {
        var i :| 0 <= i < |m.rows| && m.rows[i] == r;
        assert a.made.rows[i] in a.made.rows;
      }
    }
  }

  lemma {:induction false} RunRows(s: State, steps: seq<Step>)
    requires Good(s) && forall id <- s.acts :: RowsOk(s.acts[id])
    ensures Good(Run(s, steps)) && forall id <- Run(s, steps).acts :: RowsOk(Run(s, steps).acts[id])
    decreases |steps|
  {
    if steps != [] {
      var t := Run(s, steps[..|steps| - 1]);
      RunRows(s, steps[..|steps| - 1]);
      var step := steps[|steps| - 1];
      StepKeepsGood(t, step);
      StepRows(t, step);
    }
  }

  lemma StepRows(s: State, step: Step)
    requires Good(s) && forall id <- s.acts :: RowsOk(s.acts[id])
    ensures forall id <- Next(s, step).acts :: RowsOk(Next(s, step).acts[id])
  {
    if step.On? && step.id in s.acts {
      assert ActOk(s, step.id);
      EventRows(s, s.acts[step.id], SlotsFor(s, step.id), step.event);
    } else if step.Restart? {
      forall id <- s.acts ensures RowsOk(RestartAct(s.acts[id])) {
        RestartRows(s.acts[id]);
      }
    }
  }

  /** Over every run, an outcome agrees with what the action's own stage left:
      a cloud analysis is `done` only with a proposal of its own, and recovery
      says `unconfirmed` only where the tagged rows prove nothing, which stays
      so: no proposal, and no failed fix row but interrupted ones. */
  lemma OutcomesMatchTheRows(s: State, id: Id)
    requires Reachable(s) && id in s.acts && s.acts[id].row.Some?
    ensures var a := s.acts[id]; var r := a.row.value;
            && (r.kind.AnalyzeCloud? && r.outcome == Some(Done) ==> a.made.proposals != [])
            && (r.message.Unconfirmed? ==>
                  a.made.proposals == []
                  && forall x <- a.made.rows :: x.stage.FixStage? && x.status.StageFailed? ==> x.interrupted)
  {
    var s0: State, steps: seq<Step> :| Initial(s0) && s == Run(s0, steps);
    InitialIsGood(s0);
    RunRows(s0, steps);
  }
}
