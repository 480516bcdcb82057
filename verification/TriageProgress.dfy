/** What the triage sync does when it may: what a listing, a claim's answer and a
    PR call lead to, in the terms of the action's row, its slot and what was
    asked of others. */
module TriageProgress {
  import opened Common
  import opened Ledger
  import opened Actions
  import opened TriageMachine
  import opened TriageInvariant
  import TriageRuns
  import TriageAuthority
  import Workflow

  /** The bound has passed since the action's intent was written. */
  predicate PastBound(row: Row, now: int, bound: int) {
    row.intentAt.Some? && row.intentAt.value + bound <= now
  }

  /** No other action's slot is on the report. */
  ghost predicate ReportFree(acts: map<Id, Act>, id: Id, report: Rid) {
    forall o <- acts :: o != id && acts[o].hold.Some? ==> acts[o].hold.value.report != report
  }

  /** And an LLM action finds fewer than `max(1, limit)` LLM slots taken. */
  ghost predicate SlotFree(s: State, id: Id, report: Rid, llm: bool) {
    && ReportFree(s.acts, id, report)
    && (llm ==> |set o | o in s.acts && s.acts[o].hold.Some? && s.acts[o].hold.value.llm| <
                (if s.maxConcurrent > 1 then s.maxConcurrent else 1))
  }

  predicate NeedsLlm(k: Kind) {
    k.AnalyzeLocal? || k.AnalyzeCloud? || k.FixAndOpenPr?
  }

  predicate OpensPr(k: Kind) {
    k.OpenPr? || k.FixAndOpenPr?
  }

  /** The action is over, with this outcome, and nothing of it is left in memory. */
  predicate Ended(a: Act, outcome: Outcome) {
    a.row.Some? && a.row.value.phase.Finished? && a.row.value.outcome == Some(outcome) && a.hold.None? && a.tick.None?
  }

  /** Ended by the time bound; a compound keeps what its fix step had done. */
  predicate TimedOutRow(before: Row, after: Row) {
    && after.phase.Finished? && after.outcome == Some(Failed) && after.message.TimedOutMessage?
    && (before.kind.FixAndOpenPr? ==>
          after.steps == if before.proposal.Some? then StepPair(StepDone, StepFailed)
                         else StepPair(StepFailed, StepSkipped))
  }

  /** The statuses a report may be closed from. */
  const CLOSABLE: set<Status> :=
    {Workflow.Triaged, Workflow.ClarificationNeeded, Workflow.FixProposed, Workflow.Verified}

  // ------------------------------------------------------------------- slots

  lemma SlotIs(s: State, id: Id, report: Rid, llm: bool)
    requires id in s.acts
    ensures CanHold(s.acts[id], report, llm, SlotsFor(s, id)) <==>
            s.acts[id].hold.Some? || SlotFree(s, id, report, llm)
  {
    assert LlmHeld(s.acts) == set o | o in s.acts && s.acts[o].hold.Some? && s.acts[o].hold.value.llm;
    forall o | o in s.acts && o != id && s.acts[o].hold.Some?
      ensures s.acts[o].hold.value.report in SlotsFor(s, id).taken
    {
      assert o in Held(s.acts);
    }
  }

  /** One event: the action after it, and its report's status. */
  lemma Stepped(s: State, id: Id, e: Event)
    requires id in s.acts
    ensures var (status, b) := Local(s, s.acts[id], SlotsFor(s, id), e); var t := Next(s, On(id, e));
            && t.acts == s.acts[id := b] && t.userKeys == s.userKeys && t.bound == s.bound
            && t.recorded == s.recorded && t.maxConcurrent == s.maxConcurrent
            && t.reports == if status.Some? then s.reports[s.acts[id].listed.report := status.value] else s.reports
  {
  }

  lemma Known(s: State, id: Id)
    requires Reachable(s) && id in s.acts
    ensures Inv(s.acts[id], s.userKeys, s.recorded)
  {
    TriageRuns.ReachableIsGood(s);
    assert TriageRuns.ActOk(s, id);
  }

  // ---------------------------------------------------------------- recovery

  /** An open row whose next step spends nothing: a compound past its
      checkpoint, an `open_pr`, or an inline kind. */
  predicate AwaitsFreeStep(row: Row) {
    row.phase.FixDone? || (row.phase.Dispatched? && !NeedsLlm(row.kind))
  }

  /** After a restart, or an attempt that was given up, the next listing takes
      the step up again exactly when the bound has not passed and no other
      action holds the report; past the bound it ends the action, and for a
      taken report it leaves it as it is. */
  lemma ListingResumesIff(s: State, id: Id, now: int)
    requires Reachable(s) && id in s.acts && s.acts[id].hold.None?
    requires s.acts[id].row.Some? && AwaitsFreeStep(s.acts[id].row.value)
    ensures var a := s.acts[id]; var row := a.row.value; var b := Next(s, On(id, Listing(now))).acts[id];
            var resumed := if OpensPr(row.kind) then (PrReady, None) else (Idle, Some(InlineStart));
            && (b.hold.Some? <==> !PastBound(row, now, s.bound) && ReportFree(s.acts, id, row.report))
            && (b.hold.Some? ==> b == a.(hold := Some(Hold(row.report, false, resumed.0)), tick := resumed.1))
            && (PastBound(row, now, s.bound) ==>
                  Ended(b, Failed) && TimedOutRow(row, b.row.value) && b.trace == a.trace)
            && (!PastBound(row, now, s.bound) && b.hold.None? ==> b == a)
  {
    Known(s, id);
    SlotIs(s, id, s.acts[id].row.value.report, false);
    ListingRecovers(s, id, now);
    FreeStepResumes(s.userKeys, s.bound, s.acts[id], Lookup(s.reports, s.acts[id].listed.report), SlotsFor(s, id), now);
  }

  lemma FreeStepResumes(userKeys: bool, bound: int, a: Act, status: Option<Status>, slots: Slots, now: int)
    requires a.row.Some? && AwaitsFreeStep(a.row.value) && a.hold.None? && a.tick.None?
    requires a.row.value.phase.FixDone? ==>
               a.row.value.kind.FixAndOpenPr? && a.row.value.proposal.Some? && a.row.value.steps == FixStep(StepDone)
    ensures var row := a.row.value; var b := Recover(userKeys, bound, a, status, slots, now);
            var task := if OpensPr(row.kind) then PrReady else Idle;
            if PastBound(row, now, bound)
            then Ended(b, Failed) && TimedOutRow(row, b.row.value) && b.trace == a.trace
            else if CanHold(a, row.report, false, slots)
            then b == a.(hold := Some(Hold(row.report, false, task)),
                         tick := if OpensPr(row.kind) then None else Some(InlineStart))
            else b == a
  {
  }

  /** An open row that may have been with a model, or is about to be. */
  predicate AwaitsProof(row: Row) {
    row.phase.Intent? || (row.phase.Dispatched? && NeedsLlm(row.kind))
  }

  /** The action's own rows hold a finished local analysis. */
  predicate LocalizationProved(a: Act) {
    exists r <- a.made.rows :: r.stage.LocalizationStage? && r.status.StageCompleted? && !r.interrupted
  }

  /** A failure no restart wrote: of the fix stage, or, for a local analysis, of any. */
  predicate FailureProved(a: Act, anyStage: bool) {
    exists r <- a.made.rows :: (anyStage || r.stage.FixStage?) && r.status.StageFailed? && !r.interrupted
  }

  /** A run of a paid action that left a proposal is concluded by it: a cloud
      analysis is done, and a compound is checkpointed on its newest proposal
      and takes up the PR step, if its report is free. */
  lemma ProposalConcludes(s: State, id: Id, now: int)
    requires Reachable(s) && id in s.acts && s.acts[id].hold.None?
    requires s.acts[id].row.Some? && AwaitsProof(s.acts[id].row.value)
    requires !PastBound(s.acts[id].row.value, now, s.bound)
    requires Paid(s.acts[id].row.value.kind) && s.acts[id].made.proposals != []
    ensures var a := s.acts[id]; var row := a.row.value; var p := a.made.proposals[0];
            var b := Next(s, On(id, Listing(now))).acts[id];
            && b.trace == a.trace && b.made == a.made
            && if row.kind.AnalyzeCloud? then Ended(b, Done) && b.row.value.message == FixMessage(FixOk(p))
               else
                 && b.row == Some(row.(phase := FixDone, proposal := Some(p), steps := FixStep(StepDone)))
                 && b.hold == (if ReportFree(s.acts, id, row.report) then Some(Hold(row.report, false, PrReady))
                               else None)
                 && b.tick.None?
  {
    Known(s, id);
    var row := s.acts[id].row.value;
    SlotIs(s, id, row.report, false);
    Stepped(s, id, Listing(now));
    ProposalIsTaken(s.userKeys, s.bound, s.acts[id], Lookup(s.reports, s.acts[id].listed.report), SlotsFor(s, id), now);
  }

  lemma ProposalIsTaken(userKeys: bool, bound: int, a: Act, status: Option<Status>, slots: Slots, now: int)
    requires a.row.Some? && AwaitsProof(a.row.value) && !PastBound(a.row.value, now, bound)
    requires a.hold.None? && a.tick.None? && Paid(a.row.value.kind) && a.made.proposals != []
    requires a.row.value.kind.FixAndOpenPr? ==> a.row.value.proposal.None?
    ensures var row := a.row.value; var p := a.made.proposals[0];
            var b := Recover(userKeys, bound, a, status, slots, now);
            && b.trace == a.trace && b.made == a.made
            && if row.kind.AnalyzeCloud? then Ended(b, Done) && b.row.value.message == FixMessage(FixOk(p))
               else
                 && b.row == Some(row.(phase := FixDone, proposal := Some(p), steps := FixStep(StepDone)))
                 && b.hold == (if CanHold(a, row.report, false, slots) then Some(Hold(row.report, false, PrReady))
                               else None)
                 && b.tick.None?
  {
    if a.row.value.kind.FixAndOpenPr? {
      FixIsTaken(userKeys, bound, a, status, slots, now);
    }
  }

  lemma FixIsTaken(userKeys: bool, bound: int, a: Act, status: Option<Status>, slots: Slots, now: int)
    requires a.row.Some? && AwaitsProof(a.row.value) && !PastBound(a.row.value, now, bound)
    requires a.hold.None? && a.row.value.kind.FixAndOpenPr? && a.row.value.proposal.None? && a.made.proposals != []
    ensures var row := a.row.value; var p := a.made.proposals[0];
            Recover(userKeys, bound, a, status, slots, now) ==
            a.(row := Some(row.(phase := FixDone, proposal := Some(p), steps := FixStep(StepDone))),
               hold := if CanHold(a, row.report, false, slots) then Some(Hold(row.report, false, PrReady)) else None)
  {
  }

  /** One that left none, by the finished rows of its stages: done for a
      localization, failed for a failure that no restart wrote. */
  lemma FinishedRowsConclude(s: State, id: Id, now: int)
    requires Reachable(s) && id in s.acts && s.acts[id].hold.None?
    requires s.acts[id].row.Some? && AwaitsProof(s.acts[id].row.value)
    requires !PastBound(s.acts[id].row.value, now, s.bound) && NeedsLlm(s.acts[id].row.value.kind)
    requires Paid(s.acts[id].row.value.kind) ==> s.acts[id].made.proposals == []
    requires FailureProved(s.acts[id], s.acts[id].row.value.kind.AnalyzeLocal?)
             || (s.acts[id].row.value.kind.AnalyzeLocal? && LocalizationProved(s.acts[id]))
    ensures var a := s.acts[id]; var b := Next(s, On(id, Listing(now))).acts[id];
            && Ended(b, if a.row.value.kind.AnalyzeLocal? && LocalizationProved(a) then Done else Failed)
            && b.trace == a.trace && b.made == a.made && !b.row.value.message.Unconfirmed?
  {
    Known(s, id);
    if s.acts[id].row.value.kind.AnalyzeLocal? {
      LocalRowsConclude(s, id, now);
    }
  }

  lemma LocalRowsConclude(s: State, id: Id, now: int)
    requires id in s.acts && Inv(s.acts[id], s.userKeys, s.recorded) && s.acts[id].hold.None?
    requires s.acts[id].row.Some? && AwaitsProof(s.acts[id].row.value) && s.acts[id].row.value.kind.AnalyzeLocal?
    requires !PastBound(s.acts[id].row.value, now, s.bound)
    requires FailureProved(s.acts[id], true) || LocalizationProved(s.acts[id])
    ensures var a := s.acts[id]; var b := Next(s, On(id, Listing(now))).acts[id];
            && Ended(b, if LocalizationProved(a) then Done else Failed)
            && b.trace == a.trace && b.made == a.made && !b.row.value.message.Unconfirmed?
  {
  }

  /** What becomes of one whose rows prove nothing: it waits while a stage holds
      its report; it is refused if the gate has been turned on against it; it is
      failed, unconfirmed, if it may not be run twice; and otherwise it is
      dispatched again, exactly when it gets its slot. */
  ghost predicate DecidedUnproved(s: State, id: Id, b: Act)
    requires id in s.acts && s.acts[id].row.Some?
  {
    var a := s.acts[id]; var row := a.row.value;
    if row.phase.Dispatched? && a.listed.report in s.reports
       && s.reports[a.listed.report] in {Workflow.Analyzing, Workflow.FixProposing} then b == a
    else if row.phase.Intent? && s.userKeys && Paid(row.kind) && !row.requesterKey then
      Ended(b, Refused) && b.row.value.message == NotPermitted(Legacy) && b.trace == a.trace
    else if row.noAutoRetry then
      Ended(b, Failed) && b.row.value.message.Unconfirmed? && b.trace == a.trace
    else if SlotFree(s, id, row.report, NeedsLlm(row.kind)) then
      && b.row == Some(row.(phase := Dispatched))
      && b.trace == a.trace.(dispatches := a.trace.dispatches + 1)
      && b.hold == Some(Hold(row.report, NeedsLlm(row.kind),
                             if NeedsLlm(row.kind) then Queued else if row.kind.OpenPr? then PrReady else Idle))
      && b.tick == (if OpensPr(row.kind) || NeedsLlm(row.kind) then None else Some(InlineStart))
    else b == a
  }

  /** Nothing of the action's own proves how it ended. */
  predicate NothingProved(a: Act, kind: Kind) {
    && (Paid(kind) ==> a.made.proposals == [] && !FailureProved(a, false))
    && (kind.AnalyzeLocal? ==> !FailureProved(a, true) && !LocalizationProved(a))
  }

  lemma UnprovedIsDecided(s: State, id: Id, now: int)
    requires Reachable(s) && id in s.acts && s.acts[id].hold.None?
    requires s.acts[id].row.Some? && AwaitsProof(s.acts[id].row.value)
    requires !PastBound(s.acts[id].row.value, now, s.bound) && NothingProved(s.acts[id], s.acts[id].row.value.kind)
    ensures DecidedUnproved(s, id, Next(s, On(id, Listing(now))).acts[id])
  {
    Known(s, id);
    var a := s.acts[id]; var row := a.row.value;
    var status := Lookup(s.reports, a.listed.report);
    ListingRecovers(s, id, now);
    if row.noAutoRetry || (row.phase.Intent? && s.userKeys && Paid(row.kind) && !row.requesterKey) {
      UnprovedIsEnded(s.userKeys, s.bound, a, status, SlotsFor(s, id), now);
    } else {
      SlotIs(s, id, row.report, NeedsLlm(row.kind));
      UnprovedRunsAgain(s.userKeys, s.bound, a, status, SlotsFor(s, id), now);
    }
  }

  lemma ListingRecovers(s: State, id: Id, now: int)
    requires id in s.acts && Inv(s.acts[id], s.userKeys, s.recorded) && s.acts[id].hold.None?
    requires s.acts[id].row.Some? && (AwaitsProof(s.acts[id].row.value) || AwaitsFreeStep(s.acts[id].row.value))
    ensures s.acts[id].tick.None? && s.acts[id].row.value.report == s.acts[id].listed.report
    ensures Next(s, On(id, Listing(now))).acts[id] ==
            Recover(s.userKeys, s.bound, s.acts[id], Lookup(s.reports, s.acts[id].listed.report), SlotsFor(s, id), now)
  {
  }

  lemma UnprovedRunsAgain(userKeys: bool, bound: int, a: Act, status: Option<Status>, slots: Slots, now: int)
    requires a.row.Some? && AwaitsProof(a.row.value) && !PastBound(a.row.value, now, bound) && a.hold.None?
    requires Paid(a.row.value.kind) ==> a.made.proposals == [] && !FailureProved(a, false)
    requires a.row.value.kind.AnalyzeLocal? ==> !FailureProved(a, true) && !LocalizationProved(a)
    requires var row := a.row.value;
             !row.noAutoRetry && !(row.phase.Intent? && userKeys && Paid(row.kind) && !row.requesterKey)
    ensures var row := a.row.value; var b := Recover(userKeys, bound, a, status, slots, now);
            var task := if NeedsLlm(row.kind) then Queued else if row.kind.OpenPr? then PrReady else Idle;
            var waits := status == Some(Workflow.Analyzing) || status == Some(Workflow.FixProposing);
            if (row.phase.Dispatched? && waits) || !CanHold(a, row.report, NeedsLlm(row.kind), slots) then b == a
            else b == a.(row := Some(row.(phase := Dispatched)),
                         trace := a.trace.(dispatches := a.trace.dispatches + 1),
                         hold := Some(Hold(row.report, NeedsLlm(row.kind), task)),
                         tick := if OpensPr(row.kind) || NeedsLlm(row.kind) then None else Some(InlineStart))
  {
  }

  lemma UnprovedIsEnded(userKeys: bool, bound: int, a: Act, status: Option<Status>, slots: Slots, now: int)
    requires a.row.Some? && AwaitsProof(a.row.value) && !PastBound(a.row.value, now, bound) && Paid(a.row.value.kind)
    requires a.made.proposals == [] && !FailureProved(a, false)
    requires var row := a.row.value; row.noAutoRetry || (row.phase.Intent? && userKeys && !row.requesterKey)
    ensures var row := a.row.value; var b := Recover(userKeys, bound, a, status, slots, now);
            if row.phase.Dispatched? && (status == Some(Workflow.Analyzing) || status == Some(Workflow.FixProposing))
            then b == a
            else
              && b == a.(row := b.row) && b.row.Some? && b.row.value.phase.Finished?
              && if row.phase.Intent? && userKeys && !row.requesterKey
                 then b.row.value.outcome == Some(Refused) && b.row.value.message == NotPermitted(Legacy)
                 else b.row.value.outcome == Some(Failed) && b.row.value.message.Unconfirmed?
  {
  }

  /** And past the bound it is ended, whatever its rows prove. */
  lemma OverdueIsEnded(s: State, id: Id, now: int)
    requires Reachable(s) && id in s.acts && s.acts[id].hold.None?
    requires s.acts[id].row.Some? && AwaitsProof(s.acts[id].row.value)
    requires PastBound(s.acts[id].row.value, now, s.bound)
    ensures var a := s.acts[id]; var b := Next(s, On(id, Listing(now))).acts[id];
            Ended(b, Failed) && TimedOutRow(a.row.value, b.row.value) && b.trace == a.trace
  {
    Known(s, id);
  }

  /** The phase a PR step is taken from. */
  predicate AtPrStep(row: Row) {
    if row.kind.FixAndOpenPr? then row.phase.FixDone? else row.phase.Dispatched?
  }

  /** Begun in time, the PR step makes one PR call, of the checkpointed
      proposal if the action is a compound; otherwise it makes none and ends. */
  lemma PrStepBegins(s: State, id: Id, now: int)
    requires id in s.acts && s.acts[id].hold.Some? && s.acts[id].hold.value.task.PrReady?
    requires Inv(s.acts[id], s.userKeys, s.recorded)
    ensures s.acts[id].row.Some?
    ensures var a := s.acts[id]; var row := a.row.value; var b := Next(s, On(id, PrBegins(now))).acts[id];
            var p := if row.kind.FixAndOpenPr? then row.proposal else None;
            && (row.kind.FixAndOpenPr? ==> row.proposal.Some?)
            && (AtPrStep(row) && !PastBound(row, now, s.bound) ==>
                  && b.row == a.row && b.trace == a.trace.(prCalls := a.trace.prCalls + [p])
                  && b.hold == Some(a.hold.value.(task := PrCalling(p, row.attempts))))
            && (!(AtPrStep(row) && !PastBound(row, now, s.bound)) ==> b.hold.None? && b.trace == a.trace)
            && (AtPrStep(row) && PastBound(row, now, s.bound) ==> b.row.Some? && TimedOutRow(row, b.row.value))
            && (!AtPrStep(row) ==> b.row == a.row)
  {
  }

  /** So a paid fix that was checkpointed is never lost to a restart: within the
      bound, with its report free, one listing and the start of the step make
      the PR call with exactly the checkpointed proposal. */
  lemma ResumedStepCallsThePr(s: State, id: Id, now: int, later: int)
    requires Reachable(s) && id in s.acts && s.acts[id].hold.None?
    requires s.acts[id].row.Some? && AwaitsFreeStep(s.acts[id].row.value) && OpensPr(s.acts[id].row.value.kind)
    ensures var a := s.acts[id]; var row := a.row.value;
            var b := Next(Next(s, On(id, Listing(now))), On(id, PrBegins(later))).acts[id];
            var called := a.trace.prCalls + [if row.kind.FixAndOpenPr? then row.proposal else None];
            && (row.kind.FixAndOpenPr? ==> row.proposal.Some? && row.proposal.value in a.made.proposals)
            && (b.trace.prCalls == called <==>
                  && !PastBound(row, now, s.bound) && !PastBound(row, later, s.bound)
                  && ReportFree(s.acts, id, row.report))
            && (b.trace.prCalls == called || b.trace.prCalls == a.trace.prCalls)
  {
    Known(s, id);
    TriageRuns.ReachableIsGood(s);
    ListingResumesIff(s, id, now);
    var t := Next(s, On(id, Listing(now)));
    TriageRuns.StepKeepsGood(s, On(id, Listing(now)));
    assert TriageRuns.ActOk(t, id);
    if t.acts[id].hold.Some? {
      PrStepBegins(t, id, later);
    } else {
      NoTaskNoPrStep(t, id, later);
    }
  }

  lemma NoTaskNoPrStep(s: State, id: Id, now: int)
    requires id in s.acts && s.acts[id].hold.None?
    ensures Next(s, On(id, PrBegins(now))).acts[id] == s.acts[id]
  {
  }

  // -------------------------------------------------------------- the PR call

  /** An answer of the open-pr call of an action, as the protocol gives it. */
  predicate AnswersTheCall(s: State, id: Id, answer: PrAnswer) {
    && id in s.acts && s.acts[id].hold.Some? && s.acts[id].hold.value.task.PrCalling?
    && (answer.Opened? ==>
          var report := s.acts[id].listed.report; var p := s.acts[id].hold.value.task.proposal;
          report in s.recorded && (p.Some? ==> p.value == s.recorded[report]))
  }

  /** In time, an answered PR call ends the action for an opened PR, a refused
      one, and the third trouble; any other answer leaves the row open and its
      slot free, so that the next listing takes the step up again. */
  lemma PrAnswerDecides(s: State, id: Id, answer: PrAnswer, now: int)
    requires AnswersTheCall(s, id, answer) && Inv(s.acts[id], s.userKeys, s.recorded)
    requires s.acts[id].row.Some? && AtPrStep(s.acts[id].row.value) && !PastBound(s.acts[id].row.value, now, s.bound)
    ensures var a := s.acts[id]; var row := a.row.value; var n := a.hold.value.task.attempts;
            var b := Next(s, On(id, PrAnswered(answer, now))).acts[id];
            && b.hold.None? && b.tick.None? && b.trace == a.trace
            && match answer
               case Opened(url, _) =>
                 && Ended(b, Done) && b.row.value.prUrl == Some(url)
                 && b.row.value.message == PrMessage(row.kind.FixAndOpenPr?, Done, "")
               case PrRefused(code) =>
                 && Ended(b, Refused) && b.row.value.prUrl == row.prUrl
                 && b.row.value.message == PrMessage(row.kind.FixAndOpenPr?, Refused, code)
               case InProgress => b.row == Some(row.(attempts := n))
               case Broken => b.row == a.row
               case Trouble(detail) =>
                 if n < 2 then b.row == Some(row.(attempts := n + 1))
                 else Ended(b, Failed) && b.row.value.message == PrMessage(row.kind.FixAndOpenPr?, Failed, detail)
  {
    if answer.Opened? || answer.PrRefused? {
      PrOutcomeEnds(s, id, answer, now);
    } else {
      PrTroubleCounts(s, id, answer, now);
    }
  }

  lemma PrOutcomeEnds(s: State, id: Id, answer: PrAnswer, now: int)
    requires AnswersTheCall(s, id, answer) && Inv(s.acts[id], s.userKeys, s.recorded)
    requires s.acts[id].row.Some? && AtPrStep(s.acts[id].row.value) && !PastBound(s.acts[id].row.value, now, s.bound)
    requires answer.Opened? || answer.PrRefused?
    ensures var a := s.acts[id]; var b := Next(s, On(id, PrAnswered(answer, now))).acts[id];
            && Ended(b, if answer.Opened? then Done else Refused) && b.trace == a.trace
            && b.row.value.prUrl == (if answer.Opened? then Some(answer.url) else a.row.value.prUrl)
            && b.row.value.message == (if answer.Opened? then PrMessage(a.row.value.kind.FixAndOpenPr?, Done, "")
                                       else PrMessage(a.row.value.kind.FixAndOpenPr?, Refused, answer.code))
  {
    Stepped(s, id, PrAnswered(answer, now));
    AnswerIsTaken(s, id, answer, now);
    PrOverEnds(s.acts[id], s.acts[id].hold.value.task.attempts, answer, now, s.bound);
  }

  lemma AnswerIsTaken(s: State, id: Id, answer: PrAnswer, now: int)
    requires AnswersTheCall(s, id, answer) && Inv(s.acts[id], s.userKeys, s.recorded)
    ensures s.acts[id].tick.None?
    ensures Local(s, s.acts[id], SlotsFor(s, id), PrAnswered(answer, now)).1
         == PrOver(s.acts[id], s.acts[id].hold.value.task.attempts, answer, now, s.bound)
  {
  }

  lemma PrOverEnds(a: Act, n: nat, answer: PrAnswer, now: int, bound: int)
    requires a.row.Some? && AtPrStep(a.row.value) && !PastBound(a.row.value, now, bound)
    requires answer.Opened? || answer.PrRefused?
    ensures var b := PrOver(a, n, answer, now, bound);
            && b == a.(row := b.row, hold := None) && b.row.Some? && b.row.value.phase.Finished?
            && b.row.value.outcome == Some(if answer.Opened? then Done else Refused)
            && b.row.value.prUrl == (if answer.Opened? then Some(answer.url) else a.row.value.prUrl)
            && b.row.value.message == (if answer.Opened? then PrMessage(a.row.value.kind.FixAndOpenPr?, Done, "")
                                       else PrMessage(a.row.value.kind.FixAndOpenPr?, Refused, answer.code))
  {
  }

  lemma PrTroubleCounts(s: State, id: Id, answer: PrAnswer, now: int)
    requires AnswersTheCall(s, id, answer) && Inv(s.acts[id], s.userKeys, s.recorded)
    requires s.acts[id].row.Some? && AtPrStep(s.acts[id].row.value) && !PastBound(s.acts[id].row.value, now, s.bound)
    requires answer.InProgress? || answer.Broken? || answer.Trouble?
    ensures var a := s.acts[id]; var row := a.row.value; var n := a.hold.value.task.attempts;
            var b := Next(s, On(id, PrAnswered(answer, now))).acts[id];
            && b.hold.None? && b.tick.None? && b.trace == a.trace
            && match answer
               case InProgress => b.row == Some(row.(attempts := n))
               case Broken => b.row == a.row
               case Trouble(detail) =>
                 if n < 2 then b.row == Some(row.(attempts := n + 1))
                 else Ended(b, Failed) && b.row.value.message == PrMessage(row.kind.FixAndOpenPr?, Failed, detail)
  {
  }

  /** Past the bound, or when the action was ended meanwhile, the answer is only
      noted, and the outcome stands. */
  lemma LatePrAnswerIsNoted(s: State, id: Id, answer: PrAnswer, now: int)
    requires AnswersTheCall(s, id, answer) && Inv(s.acts[id], s.userKeys, s.recorded) && !answer.Broken?
    requires s.acts[id].row.Some?
    requires s.acts[id].row.value.phase.Finished? || PastBound(s.acts[id].row.value, now, s.bound)
    ensures var a := s.acts[id]; var row := a.row.value; var n := a.hold.value.task.attempts;
            var b := Next(s, On(id, PrAnswered(answer, now))).acts[id];
            && b.hold.None? && b.trace == a.trace && b.row.Some?
            && (if row.phase.Finished? then b.row.value == row.(late := b.row.value.late)
                else TimedOutRow(row, b.row.value))
            && b.row.value.late == Some(match answer
                                        case Opened(_, _) => LateOutcome(Done)
                                        case PrRefused(_) => LateOutcome(Refused)
                                        case InProgress => LatePending
                                        case Trouble(_) => if n < 2 then LatePending else LateOutcome(Failed))
  {
  }

  // ------------------------------------------------------- listing and claim

  /** Whether a listing hands the action's slot to the claim. */
  ghost predicate Posted(a: Act, b: Act, llm: bool, report: Rid) {
    && b.hold == Some(Hold(report, llm, Idle)) && b.tick == Some(Posting) && b.trace == a.trace && b.remote == a.remote
    && b.posting == a.posting && b.made == a.made
  }

  /** A listed action without a row is reserved and claimed exactly when its
      report has been imported, no other action holds the report, and, if it
      needs a model, an LLM slot is free; otherwise the listing leaves it. */
  lemma FirstListingReservesIff(s: State, id: Id, now: int)
    requires Reachable(s) && id in s.acts && s.acts[id].row.None?
    ensures var a := s.acts[id]; var l := a.listed; var b := Next(s, On(id, Listing(now))).acts[id];
            && (b.row.Some? <==> l.report in s.reports && SlotFree(s, id, l.report, NeedsLlm(l.kind)))
            && (b.row.Some? ==>
                  && Posted(a, b, NeedsLlm(l.kind), l.report)
                  && var row := b.row.value;
                     row.phase.Reserved? && row.kind == l.kind && row.report == l.report && row.outcome.None?
                     && row.intentAt.None? && row.attempts == 0 && row.proposal.None? && !row.acked && !row.breach)
            && (b.row.None? ==> b == a)
  {
    Known(s, id);
    SlotIs(s, id, s.acts[id].listed.report, NeedsLlm(s.acts[id].listed.kind));
  }

  /** A reserved action whose claim came to nothing is claimed again at the
      next listing, exactly when it gets its slot. */
  lemma ReservedIsClaimedAgainIff(s: State, id: Id, now: int)
    requires Reachable(s) && id in s.acts && s.acts[id].hold.None?
    requires s.acts[id].row.Some? && s.acts[id].row.value.phase.Reserved?
    ensures var a := s.acts[id]; var row := a.row.value; var b := Next(s, On(id, Listing(now))).acts[id];
            && (b.hold.Some? <==> SlotFree(s, id, row.report, NeedsLlm(row.kind)))
            && b.row == a.row
            && (if b.hold.Some? then Posted(a, b, NeedsLlm(row.kind), row.report) else b == a)
  {
    Known(s, id);
    SlotIs(s, id, s.acts[id].row.value.report, NeedsLlm(s.acts[id].row.value.kind));
  }

  /** The answer of the claim: what sonicgrid accepted is authorized, once, or
      refused with the row finished; what somebody else has, or nobody knows,
      is forgotten; what went unanswered stays reserved with its slot free. */
  lemma ClaimAnswerDecides(s: State, id: Id, fate: Fate, ctx: Context, now: int)
    requires Reachable(s) && id in s.acts && s.acts[id].tick == Some(Posting)
    ensures s.acts[id].row.Some? && s.acts[id].row.value.phase.Reserved?
    ensures var a := s.acts[id]; var b := Next(s, On(id, ClaimAnswered(fate, ctx, now))).acts[id];
            var claimed := fate.Answered? && !a.remote.Terminal?;
            var forgotten := fate.NotFound? || fate.Conflict? || (fate.Answered? && a.remote.Terminal?);
            && b.trace == a.trace && b.made == a.made
            && b.remote == (if claimed || (fate.AnswerLost? && !a.remote.Terminal?) then RemoteClaimed else a.remote)
            && (!claimed ==> b.hold.None? && b.tick.None? && b.row == if forgotten then None else a.row)
            && (claimed && a.listed.report !in s.reports ==> b.hold.None? && b.tick.None? && b.row == a.row)
            && (claimed && a.listed.report in s.reports ==>
                  match Authorize(s.userKeys, a.listed, ctx, s.reports[a.listed.report])
                  case Refuse(r) => Ended(b, r.outcome) && b.row.value.message == r.message
                  case Grant(pin, local, noAutoRetry, requesterKey) =>
                    && b.hold == a.hold && b.tick == Some(Intended)
                    && b.row == Some(a.row.value.(phase := Intent, intentAt := Some(now), pin := pin, local := local,
                                                  noAutoRetry := noAutoRetry, requesterKey := requesterKey)))
  {
    Known(s, id);
    if fate.Answered? && !s.acts[id].remote.Terminal? {
      var c := s.acts[id].(remote := RemoteClaimed);
      ClaimIsDecided(c, s.userKeys, ctx, Lookup(s.reports, c.listed.report), now);
    }
  }

  lemma ClaimIsDecided(a: Act, userKeys: bool, ctx: Context, status: Option<Status>, now: int)
    requires a.row.Some? && a.row.value.phase.Reserved? && a.tick == Some(Posting)
    requires a.hold.Some? && a.hold.value.task.Idle?
    ensures var b := Claim(userKeys, a, ctx, status, now);
            && (status.None? ==> b == a.(hold := None, tick := None))
            && (status.Some? ==>
                  match Authorize(userKeys, a.listed, ctx, status.value)
                  case Refuse(r) =>
                    && Ended(b, r.outcome) && b.row.value.message == r.message
                    && b == a.(row := b.row, hold := None, tick := None)
                  case Grant(pin, local, noAutoRetry, requesterKey) =>
                    b == a.(tick := Some(Intended),
                            row := Some(a.row.value.(phase := Intent, intentAt := Some(now), pin := pin, local := local,
                                                     noAutoRetry := noAutoRetry, requesterKey := requesterKey))))
  {
  }

  /** A model of the requester's: Anthropic's, with a name that says something. */
  predicate NamesAModel(p: LlmParam) {
    p.Names? && p.provider.Anthropic? && |p.model| <= 200 && exists c <- p.model :: c !in " \t\n\r"
  }

  /** What an action may be run for: its consents and model, the project's
      models, the allowlist, and its report as it is. */
  predicate MayRun(userKeys: bool, l: Listed, ctx: Context, status: Status) {
    match l.kind
    case AnalyzeLocal =>
      && ctx.triagePin.provider.Ollama? && ctx.localizePin.provider.Ollama?
      && (status.Triaged? || status.ClarificationNeeded?)
    case OpenPr => l.repoWrite
    case SetMode => l.modeValid
    case Reopen => status.Closed?
    case Close => status in CLOSABLE
    case OtherKind => false
    case _ =>
      var compound := l.kind.FixAndOpenPr?;
      var free := ctx.fixPin.provider.Ollama?;
      && status.Triaged? && ctx.freshLocalization && (compound ==> l.repoWrite)
      && if userKeys then NamesAModel(l.llm) && (compound ==> l.cloudSpend)
         else l.llm.Absent? && (compound && !free ==> l.cloudSpend) && (!compound || !free ==> ctx.allowlisted)
  }

  /** A refusal's reason is there. */
  predicate ReasonHolds(m: Message, userKeys: bool, l: Listed, ctx: Context, status: Status) {
    match m
    case UnknownKind => l.kind.OtherKind?
    case NotPermitted(why) =>
      (match why
       case Consent => OpensPr(l.kind) && !(l.repoWrite && l.cloudSpend) && (l.kind.OpenPr? ==> !l.repoWrite)
       case Allowlist => Paid(l.kind) && !userKeys && !ctx.allowlisted
       case UserKeysOff => Paid(l.kind) && !userKeys && !l.llm.Absent?
       case Legacy => Paid(l.kind) && userKeys && l.llm.Absent?
       case NoPin => Paid(l.kind) && userKeys && !l.llm.Absent? && !NamesAModel(l.llm)
       case Precondition =>
         (match l.kind
          case AnalyzeLocal => !MayRun(userKeys, l, ctx, status)
          case SetMode => !l.modeValid
          case Reopen => !status.Closed?
          case Close => status !in CLOSABLE
          case _ => Paid(l.kind) && !(status.Triaged? && ctx.freshLocalization))
       case NoReport => false)
    case _ => false
  }

  /** An authorization that decides as `MayRun` says, and refuses for a reason. */
  predicate DecidesRightly(auth: Authorization, userKeys: bool, l: Listed, ctx: Context, status: Status) {
    if MayRun(userKeys, l, ctx, status)
    then auth.Grant? && (!Paid(l.kind) ==> auth == Grant(None, LocalModels(l.kind, ctx), false, false))
    else auth.Refuse? && auth.result.outcome.Refused? && ReasonHolds(auth.result.message, userKeys, l, ctx, status)
  }

  function LocalModels(kind: Kind, ctx: Context): Option<LocalPins> {
    if kind.AnalyzeLocal? then Some(LocalPins(ctx.triagePin, ctx.localizePin)) else None
  }

  lemma PaidIsDecided(userKeys: bool, l: Listed, ctx: Context, status: Status)
    requires Paid(l.kind)
    ensures DecidesRightly(AuthorizePaid(userKeys, l, ctx, status), userKeys, l, ctx, status)
  {
    if userKeys {
      RequesterIsDecided(l, ctx, status);
    }
  }

  lemma RequesterIsDecided(l: Listed, ctx: Context, status: Status)
    requires Paid(l.kind)
    ensures DecidesRightly(AuthorizeRequester(l, ctx, status), true, l, ctx, status)
  {
    assert NamesAModel(l.llm) <==> RequesterPin(l.llm).Some?;
  }

  lemma FreeIsDecided(userKeys: bool, l: Listed, ctx: Context, status: Status)
    requires !Paid(l.kind)
    ensures DecidesRightly(Authorize(userKeys, l, ctx, status), userKeys, l, ctx, status)
  {
  }

  lemma AuthorizedIff(userKeys: bool, l: Listed, ctx: Context, status: Status)
    ensures DecidesRightly(Authorize(userKeys, l, ctx, status), userKeys, l, ctx, status)
  {
    if Paid(l.kind) {
      PaidIsDecided(userKeys, l, ctx, status);
    } else {
      FreeIsDecided(userKeys, l, ctx, status);
    }
  }

  /** A claim that sonicgrid granted runs if and only if the action may; if it
      may not, it is refused for a reason that is there. */
  lemma ClaimedRunsIff(s: State, id: Id, ctx: Context, now: int)
    requires Reachable(s) && id in s.acts && s.acts[id].tick == Some(Posting) && !s.acts[id].remote.Terminal?
    requires s.acts[id].listed.report in s.reports
    ensures var a := s.acts[id]; var status := s.reports[a.listed.report];
            var b := Next(s, On(id, ClaimAnswered(Answered, ctx, now))).acts[id];
            if MayRun(s.userKeys, a.listed, ctx, status)
            then
              && b.row.Some? && b.row.value.phase.Intent? && b.row.value.intentAt == Some(now)
              && b.tick == Some(Intended) && b.hold == a.hold
            else Ended(b, Refused) && ReasonHolds(b.row.value.message, s.userKeys, a.listed, ctx, status)
  {
    ClaimAnswerDecides(s, id, Answered, ctx, now);
    AuthorizedIff(s.userKeys, s.acts[id].listed, ctx, s.reports[s.acts[id].listed.report]);
  }

  /** What was granted is dispatched, once, unless the bound ended it first: a
      task for what needs a model, the PR step, or the inline step. */
  lemma GrantedIsDispatched(s: State, id: Id)
    requires Reachable(s) && id in s.acts && s.acts[id].tick == Some(Intended)
    ensures s.acts[id].row.Some? && s.acts[id].hold.Some?
    ensures var a := s.acts[id]; var row := a.row.value; var b := Next(s, On(id, DispatchIntended)).acts[id];
            if row.phase.Intent? then
              && b.row == Some(row.(phase := Dispatched))
              && b.trace == a.trace.(dispatches := a.trace.dispatches + 1)
              && b.hold == Some(a.hold.value.(task := if NeedsLlm(row.kind) then Queued
                                                      else if row.kind.OpenPr? then PrReady else Idle))
              && b.tick == (if OpensPr(row.kind) || NeedsLlm(row.kind) then None else Some(InlineStart))
            else b.row == a.row && b.trace == a.trace && b.hold.None? && b.tick.None?
  {
    Known(s, id);
  }

  /** A claim that came to nothing is not the end of it: unanswered, the next
      listing makes it again, and forgotten, it reserves the action anew; in
      both cases exactly when the action gets its slot. */
  lemma LostClaimIsMadeAgainIff(s: State, id: Id, fate: Fate, ctx: Context, now: int, later: int)
    requires Reachable(s) && id in s.acts && s.acts[id].tick == Some(Posting) && s.acts[id].listed.report in s.reports
    requires !fate.Answered? || s.acts[id].remote.Terminal?
    ensures var l := s.acts[id].listed; var t := Next(s, On(id, ClaimAnswered(fate, ctx, now)));
            var b := Next(t, On(id, Listing(later))).acts[id];
            && t.acts[id].hold.None?
            && (b.tick == Some(Posting) <==> SlotFree(t, id, l.report, NeedsLlm(l.kind)))
            && (b.tick == Some(Posting) ==>
                  b.hold == Some(Hold(l.report, NeedsLlm(l.kind), Idle)) && b.row.Some? && b.row.value.phase.Reserved?)
            && b.trace == s.acts[id].trace
  {
    Known(s, id);
    ClaimAnswerDecides(s, id, fate, ctx, now);
    var step := On(id, ClaimAnswered(fate, ctx, now));
    ReachableAfter(s, step);
    Stepped(s, id, step.event);
    Known(Next(s, step), id);
    ClaimLeavesTheReport(s, id, fate, ctx, now);
    if Next(s, step).acts[id].row.None? {
      FirstListingReservesIff(Next(s, step), id, later);
    } else {
      ReservedIsClaimedAgainIff(Next(s, step), id, later);
    }
  }

  lemma ClaimLeavesTheReport(s: State, id: Id, fate: Fate, ctx: Context, now: int)
    requires id in s.acts
    ensures var t := Next(s, On(id, ClaimAnswered(fate, ctx, now)));
            t.acts[id].listed == s.acts[id].listed && t.reports.Keys >= s.reports.Keys
  {
  }

  lemma ReachableAfter(s: State, step: Step)
    requires Reachable(s)
    ensures Reachable(Next(s, step))
  {
    var s0: State, steps: seq<Step> :| Initial(s0) && s == Run(s0, steps);
    assert (steps + [step])[..|steps + [step]| - 1] == steps;
    assert Run(s0, steps + [step]) == Next(s, step);
  }

  /** A claim that sonicgrid granted is dispatched by the next step if and only if
      the action may run: as a task, as the PR step, or as the inline step. */
  lemma ClaimedIsDispatchedIff(s: State, id: Id, ctx: Context, now: int)
    requires Reachable(s) && id in s.acts && s.acts[id].tick == Some(Posting) && !s.acts[id].remote.Terminal?
    requires s.acts[id].listed.report in s.reports
    ensures var a := s.acts[id]; var kind := a.listed.kind;
            var t := Next(Next(s, On(id, ClaimAnswered(Answered, ctx, now))), On(id, DispatchIntended));
            var b := t.acts[id];
            && b.trace.dispatches == a.trace.dispatches
                 + (if MayRun(s.userKeys, a.listed, ctx, s.reports[a.listed.report]) then 1 else 0)
            && (if MayRun(s.userKeys, a.listed, ctx, s.reports[a.listed.report])
                then b.row.Some? && b.row.value.phase.Dispatched? && b.hold.Some?
                     && b.hold.value.task == (if NeedsLlm(kind) then Queued else if kind.OpenPr? then PrReady else Idle)
                     && b.tick == (if OpensPr(kind) || NeedsLlm(kind) then None else Some(InlineStart))
                else Ended(b, Refused))
  {
    Known(s, id);
    ClaimedRunsIff(s, id, ctx, now);
    ClaimAnswerDecides(s, id, Answered, ctx, now);
    var step := On(id, ClaimAnswered(Answered, ctx, now));
    ReachableAfter(s, step);
    Known(Next(s, step), id);
    if Next(s, step).acts[id].tick.Some? {
      GrantedIsDispatched(Next(s, step), id);
    } else {
      NothingIntended(Next(s, step), id);
    }
  }

  lemma NothingIntended(s: State, id: Id)
    requires id in s.acts && s.acts[id].tick.None?
    ensures Next(s, On(id, DispatchIntended)).acts[id] == s.acts[id]
  {
  }
}
