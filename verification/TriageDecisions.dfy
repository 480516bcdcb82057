/** What the triage sync's decisions decide, each as an exact condition. */
module TriageDecisions {
  import opened Common
  import opened Ledger
  import opened Actions
  import opened TriageMachine
  import Workflow
  import OpenPr
  import OpenPrResults

  // ----------------------------------------------------------- authorization

  /** What a paid kind needs. With per-user keys on: a valid `params.llm` and,
      for the compound, both consents. With them off: no `params.llm` at all,
      the allowlist for whatever is paid, and the spend consent for a compound
      whose fix is paid. Always: a triaged report, freshly localized. */
  lemma PaidGrantIff(userKeys: bool, a: Listed, ctx: Context, status: Status)
    requires Paid(a.kind)
    ensures Authorize(userKeys, a, ctx, status).Grant? <==>
            && status.Triaged? && ctx.freshLocalization
            && (a.kind.FixAndOpenPr? ==> a.repoWrite && (userKeys || IsPaid(ctx.fixPin) ==> a.cloudSpend))
            && (userKeys ==> RequesterPin(a.llm).Some?)
            && (!userKeys ==> a.llm.Absent? && (a.kind.AnalyzeCloud? || IsPaid(ctx.fixPin) ==> ctx.allowlisted))
  {
  }

  /** A grant's pin is the requester's or the project's, never a mixture; what
      it may spend is never retried by itself, and a free fix may be. */
  lemma PaidGrantPins(userKeys: bool, a: Listed, ctx: Context, status: Status)
    requires Paid(a.kind) && Authorize(userKeys, a, ctx, status).Grant?
    ensures var g := Authorize(userKeys, a, ctx, status);
            && g.requesterKey == userKeys
            && g.pin == (if userKeys then RequesterPin(a.llm) else Some(ctx.fixPin)) && g.pin.Some?
            && (IsPaid(g.pin.value) || a.kind.AnalyzeCloud? <==> g.noAutoRetry)
  {
  }

  // ---------------------------------------------------------------- evidence

  /** Rows a crash cut off prove nothing; without a finished row of its own
      the action has no evidence. */
  lemma InterruptedRowsProveNothing(kind: Kind, made: Made)
    requires made.proposals == []
    requires forall r <- made.rows :: r.status.StageRunning? || r.interrupted
    ensures Evidence(kind, Interrupt(made)).None?
  {
  }

  // ---------------------------------------------------------------- recovery

  /** Recovery dispatches an open row again exactly when nothing says it must not. */
  lemma RecoveryDispatchesIff(userKeys: bool, bound: int, a: Act, status: Option<Status>, slots: Slots, now: int)
    requires a.row.Some? && !a.row.value.phase.Reserved? && !a.row.value.phase.Finished?
    ensures var row := a.row.value;
            Recover(userKeys, bound, a, status, slots, now).trace.dispatches ==
            a.trace.dispatches + (if
              && (row.phase.Intent? || (row.phase.Dispatched? && Llm(row.kind)))
              && !TimedOut(row, now, bound)
              && Evidence(row.kind, a.made).None?
              && !row.noAutoRetry
              && !(row.phase.Dispatched? && StageClaimHeld(status))
              && !(row.phase.Intent? && userKeys && Paid(row.kind) && !row.requesterKey)
              && CanHold(a, row.report, Llm(row.kind), slots)
            then 1 else 0)
  {
  }

  /** The sweep finishes exactly the claimed rows past the bound, as failed,
      and leaves every slot as it was. */
  lemma SweepFinishesIff(a: Act, now: int, bound: int)
    requires a.row.Some? && !a.row.value.phase.Finished?
    ensures var b := Sweep(a, now, bound);
            && b.hold == a.hold && b.row.Some?
            && (b.row.value.phase.Finished? <==>
                  && !a.row.value.phase.Reserved?
                  && a.row.value.intentAt.Some? && a.row.value.intentAt.value + bound <= now)
            && (if b.row.value.phase.Finished?
                then b.row.value.outcome == Some(Failed) && b.row.value.message == TimedOutMessage
                     && b == a.(row := b.row)
                else b == a)
  {
  }

  // ------------------------------------------------------------------- drain

  /** An answered terminal POST is always acknowledged, as a breach exactly
      when sonicgrid already held another outcome or was never claimed; after
      it sonicgrid and the ledger agree or the breach is noted. */
  lemma AnsweredPostSettles(a: Act)
    requires a.posting.Some? && a.row.Some? && a.row.value.outcome == Some(a.posting.value.outcome)
    requires !a.row.value.acked && !a.row.value.breach
    ensures var b := DrainAnswer(a, Answered);
            && b.row.value.acked && b.posting.None?
            && (!b.row.value.breach <==> b.remote == Terminal(a.posting.value.outcome))
            && (b.row.value.breach <==>
                  (a.remote.Terminal? && a.remote.outcome != a.posting.value.outcome)
                  || (a.remote.Pending? && a.posting.value.outcome != Refused))
  {
  }

  /** A lost POST leaves the row to the next tick. */
  lemma LostPostIsRetried(a: Act, fate: Fate)
    requires a.posting.Some? && a.row.Some? && (fate.NeverArrived? || fate.AnswerLost?)
    requires a.row.value.phase.Finished? && a.row.value.outcome.Some? && !a.row.value.acked
    ensures var b := DrainSend(DrainAnswer(a, fate));
            b.posting == Some(TerminalBody(a.row.value)) && b.row == a.row
  {
  }

  // ------------------------------------------------------------ PR attempts

  /** The durable count of failed PR attempts stays below the limit. */
  predicate AttemptsOk(a: Act) {
    && (a.row.Some? ==> a.row.value.attempts < PR_STEP_MAX_ATTEMPTS)
    && (a.hold.Some? && a.hold.value.task.PrCalling? ==> a.hold.value.task.attempts < PR_STEP_MAX_ATTEMPTS)
  }

  /** Writing an outcome or a late note leaves the count alone. */
  lemma SettleKeepsAttempts(row: Row, r: Result, expected: Option<Phase>)
    ensures Settle(row, r, expected).attempts == row.attempts
  {
  }

  lemma DispatchAttempts(a: Act, from: Phase)
    requires AttemptsOk(a) && a.row.Some?
    ensures AttemptsOk(Dispatch(a, from))
  {
  }

  lemma EvidenceAttempts(a: Act, found: StageResult, slots: Slots)
    requires AttemptsOk(a) && a.row.Some?
    ensures AttemptsOk(ApplyEvidence(a, found, slots))
  {
  }

  lemma RecoverAttempts(userKeys: bool, bound: int, a: Act, status: Option<Status>, slots: Slots, now: int)
    requires AttemptsOk(a) && a.row.Some?
    ensures AttemptsOk(Recover(userKeys, bound, a, status, slots, now))
  {
    var row := a.row.value;
    var found := Evidence(row.kind, a.made);
    if TimedOut(row, now, bound) {
      SettleKeepsAttempts(row, TimeoutResult(row), None);
    } else if row.phase.FixDone? || (row.phase.Dispatched? && !Llm(row.kind)) {
    } else if found.Some? {
      EvidenceAttempts(a, found.value, slots);
    } else {
      DispatchAttempts(TakeHold(a, row.report, Llm(row.kind)), row.phase);
    }
  }

  lemma ListingAttempts(s: State, a: Act, slots: Slots, e: Event)
    requires AttemptsOk(a) && e.Listing?
    ensures AttemptsOk(Local(s, a, slots, e).1)
  {
    if a.row.Some? {
      RecoverAttempts(s.userKeys, s.bound, a, Lookup(s.reports, a.listed.report), slots, e.now);
    }
  }

  lemma AnswerAttempts(a: Act, userKeys: bool, fate: Fate, ctx: Context, status: Option<Status>, now: int)
    requires AttemptsOk(a)
    ensures AttemptsOk(ClaimAnswer(userKeys, a, fate, ctx, status, now))
  {
    GrantAttempts(a.(remote := Advance(a.remote, RemoteClaimed).0), userKeys, ctx, status, now);
  }

  lemma GrantAttempts(a: Act, userKeys: bool, ctx: Context, status: Option<Status>, now: int)
    requires AttemptsOk(a)
    ensures AttemptsOk(Claim(userKeys, a, ctx, status, now))
  {
  }

  lemma ClaimAttempts(s: State, a: Act, slots: Slots, e: Event)
    requires AttemptsOk(a) && (e.ClaimAnswered? || e.DispatchIntended?)
    ensures AttemptsOk(Local(s, a, slots, e).1)
  {
    if e.ClaimAnswered? {
      AnswerAttempts(a, s.userKeys, e.fate, e.ctx, Lookup(s.reports, a.listed.report), e.now);
    } else if a.row.Some? {
      DispatchAttempts(a, Intent);
    }
  }

  lemma InlineAttempts(s: State, a: Act, slots: Slots, e: Event)
    requires AttemptsOk(a) && (e.RunInline? || e.InlineEnds?)
    ensures AttemptsOk(Local(s, a, slots, e).1)
  {
  }

  lemma TaskEndAttempts(a: Act, r: StageResult, now: int, bound: int)
    requires AttemptsOk(a)
    ensures AttemptsOk(TaskOver(a, r, now, bound))
  {
    if a.row.Some? {
      var row := a.row.value;
      SettleKeepsAttempts(row, TimeoutResult(row), None);
      if r.Finish? {
        SettleKeepsAttempts(row, r.result, Some(Dispatched));
      }
    }
  }

  lemma PrBeginAttempts(a: Act, now: int, bound: int)
    requires AttemptsOk(a)
    ensures AttemptsOk(PrBegin(a, now, bound))
  {
  }

  lemma PrOverAttempts(a: Act, attempts: nat, answer: PrAnswer, now: int, bound: int)
    requires AttemptsOk(a) && attempts < PR_STEP_MAX_ATTEMPTS
    ensures AttemptsOk(PrOver(a, attempts, answer, now, bound))
  {
    if a.row.Some? && !answer.Broken? {
      var row := a.row.value;
      SettleKeepsAttempts(row, TimeoutResult(row), None);
      assert Expire(row, now, bound).0.attempts == row.attempts;
      if PrOutcome(answer, attempts).state.Some? {
        SettleKeepsAttempts(row, PrResult(row, PrOutcome(answer, attempts)), Some(PrPhase(row.kind)));
      }
    }
  }

  lemma PrEventAttempts(s: State, a: Act, slots: Slots, e: Event)
    requires AttemptsOk(a) && (e.TaskEnds? || e.PrBegins? || e.PrAnswered?)
    ensures AttemptsOk(Local(s, a, slots, e).1)
  {
    if a.hold.Some? {
      var task := a.hold.value.task;
      if e.TaskEnds? && task.Over? {
        TaskEndAttempts(a, task.result, e.now, s.bound);
      } else if e.PrBegins? {
        PrBeginAttempts(a, e.now, s.bound);
      } else if e.PrAnswered? && task.PrCalling? {
        PrOverAttempts(a, task.attempts, e.answer, e.now, s.bound);
      }
    }
  }

  lemma OtherAttempts(s: State, a: Act, slots: Slots, e: Event)
    requires AttemptsOk(a) && !e.Listing? && !e.ClaimAnswered? && !e.DispatchIntended?
    requires !e.RunInline? && !e.InlineEnds?
    requires !e.TaskEnds? && !e.PrBegins? && !e.PrAnswered?
    ensures AttemptsOk(Local(s, a, slots, e).1)
  {
  }

  lemma EventAttempts(s: State, a: Act, slots: Slots, e: Event)
    requires AttemptsOk(a)
    ensures AttemptsOk(Local(s, a, slots, e).1)
  {
    if e.Listing? {
      ListingAttempts(s, a, slots, e);
    } else if e.ClaimAnswered? || e.DispatchIntended? {
      ClaimAttempts(s, a, slots, e);
    } else if e.RunInline? || e.InlineEnds? {
      InlineAttempts(s, a, slots, e);
    } else if e.TaskEnds? || e.PrBegins? || e.PrAnswered? {
      PrEventAttempts(s, a, slots, e);
    } else {
      OtherAttempts(s, a, slots, e);
    }
  }

  lemma {:induction false} RunAttempts(s: State, steps: seq<Step>)
    requires forall id <- s.acts :: AttemptsOk(s.acts[id])
    ensures forall id <- Run(s, steps).acts :: AttemptsOk(Run(s, steps).acts[id])
    decreases |steps|
  {
    if steps != [] {
      var t := Run(s, steps[..|steps| - 1]);
      RunAttempts(s, steps[..|steps| - 1]);
      var step := steps[|steps| - 1];
      if step.On? && step.id in t.acts {
        EventAttempts(t, t.acts[step.id], SlotsFor(t, step.id), step.event);
      }
    }
  }

  /** Over every run, restarts included: a PR step survives at most two
      troubles, and the third ends it, failed. */
  lemma ThirdTroubleEndsThePrStep(s: State, id: Id, detail: string, now: int)
    requires Reachable(s) && id in s.acts && s.acts[id].hold.Some? && s.acts[id].hold.value.task.PrCalling?
    requires s.acts[id].row.Some? && s.acts[id].row.value.phase == PrPhase(s.acts[id].row.value.kind)
    requires !TimedOut(s.acts[id].row.value, now, s.bound)
    ensures var a := s.acts[id]; var n := a.hold.value.task.attempts;
            var b := PrOver(a, n, Trouble(detail), now, s.bound);
            && n <= 2
            && (if n == 2 then b.row.value.outcome == Some(Failed) && b.row.value.phase.Finished?
                else b.row == Some(a.row.value.(attempts := n + 1)))
  {
    var s0: State, steps: seq<Step> :| Initial(s0) && s == Run(s0, steps);
    RunAttempts(s0, steps);
  }

  /** Every answer the open-pr protocol gives is one the sync expects. */
  lemma OpenPrAnswersFit(s: OpenPr.State, r: OpenPr.Reply, url: string)
    requires OpenPr.Reachable(s) && r in s.replies
    ensures AnswerFits(Opened(url, r.created), OpenPr.Recorded(s.proposals), r.requested)
  {
    OpenPrResults.AnswersHold(s, r);
  }
}
