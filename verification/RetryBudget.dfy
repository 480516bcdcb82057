/** The fix retry budget of one report: the eligibility gate (db.py), the fix
    stage's claim and outcomes (pipeline/fix_proposer.py), and the queue
    worker, which samples once, runs what it sampled, and samples again only
    when that is over (queue/worker.py).

    Stamps come from one strictly increasing clock. Manual attempts, other
    writers of the report's status, localizations and crashes interleave
    freely with the worker. */
module RetryBudget {
  import opened Common
  import opened Workflow

  type Stamp = int

  /** A row's `completed_at`, as the clock reads. */
  datatype Completed = Missing | Malformed | At(time: int)

  /** A `fix` analysis row, failed or completed. */
  datatype FixRow = FixRow(created: Stamp, failed: bool, permanent: bool, completed: Completed)

  datatype Worker =
    | Resting
    | Sampled                              // found eligible; its task has not begun
    | Trying(loc: Stamp, called: bool)     // holds the stage claim, for that localization

  datatype State = State(
    max: int,                      // max_fix_retries
    delay: int,                    // retry_delay_seconds
    clock: Stamp,                  // the last stamp given out
    status: Status,
    latest: Option<Stamp>,         // created_at of the latest completed localization
    running: set<Stamp>,           // localizations in progress
    rows: seq<FixRow>,             // newest first
    proposed: set<Stamp>,          // localizations with a fix proposal
    worker: Worker,
    calls: map<Stamp, nat>,        // the worker's attempts that reached the model, per localization
    unrecorded: map<Stamp, nat>)   // those of them that a crash left no row of

  datatype Event =
    | LocalizationStarts
    | LocalizationCompletes(stamp: Stamp)
    | Sample(upToDate: bool, now: int)
    | ClaimAndCheck(ready: bool)
    | CallsModel
    | Defers
    | Fails(permanent: bool, completed: Completed)
    | Succeeds
    | ManualFails(permanent: bool, completed: Completed)
    | ManualProposes(loc: Stamp)
    | StatusWritten(status: Status)
    | RetryReset
    | Crash(now: int)

  // -------------------------------------------------------------- the gate

  predicate Counts(r: FixRow, reference: Option<Stamp>) {
    r.failed && (reference.None? || r.created > reference.value)
  }

  /** `_failed_attempts_after`. */
  function FailedAfter(rows: seq<FixRow>, reference: Option<Stamp>): seq<FixRow> {
    if rows == [] then []
    else (if Counts(rows[0], reference) then [rows[0]] else []) + FailedAfter(rows[1..], reference)
  }

  /** Less than the delay since it completed; a clock that is behind counts as no time at all. */
  predicate WithinDelay(completed: Completed, delay: int, now: int) {
    completed.At? && (if now > completed.time then now - completed.time else 0) < delay
  }

  /** `_retry_blocked`. */
  predicate RetryBlocked(failed: seq<FixRow>, max: int, delay: int, now: int) {
    && failed != []
    && ((exists f <- failed :: f.permanent) || |failed| >= max || WithinDelay(failed[0].completed, delay, now))
  }

  /** `reports_eligible_for_fix`, for one report. */
  predicate Eligible(s: State, upToDate: bool, now: int) {
    && s.status.Triaged? && upToDate && s.latest.Some? && s.latest.value !in s.proposed
    && !RetryBlocked(FailedAfter(s.rows, s.latest), s.max, s.delay, now)
  }

  function Count(m: map<Stamp, nat>, k: Stamp): nat {
    if k in m then m[k] else 0
  }

  // ------------------------------------------------------------------ steps

  function AddFailed(s: State, permanent: bool, completed: Completed): State {
    s.(rows := [FixRow(s.clock + 1, true, permanent, completed)] + s.rows, clock := s.clock + 1)
  }

  /** What a manual retry leaves: the rows that did not fail. */
  function Unfailed(rows: seq<FixRow>): seq<FixRow> {
    if rows == [] then []
    else (if rows[0].failed then [] else [rows[0]]) + Unfailed(rows[1..])
  }

  /** The stage's own way back to `triaged`, a compare-and-set. */
  function Unclaim(s: State): State {
    if s.status.FixProposing? then s.(status := Triaged) else s
  }

  function Next(s: State, e: Event): State {
    match e
    case LocalizationStarts => s.(running := s.running + {s.clock + 1}, clock := s.clock + 1)
    case LocalizationCompletes(stamp) =>
      if stamp !in s.running then s
      else s.(running := s.running - {stamp},
              latest := if s.latest.None? || s.latest.value < stamp then Some(stamp) else s.latest)
    case Sample(upToDate, now) =>
      if s.worker.Resting? && Eligible(s, upToDate, now) then s.(worker := Sampled) else s
    case ClaimAndCheck(ready) =>
      if !s.worker.Sampled? then s
      else if !s.status.Triaged? then s.(worker := Resting)
      else if s.latest.None? then s.(worker := Resting)
      else if s.latest.value in s.proposed then s.(status := FixProposed, worker := Resting)
      else if !ready then s.(worker := Resting)
      else s.(status := FixProposing, worker := Trying(s.latest.value, false))
    case CallsModel =>
      if !s.worker.Trying? || s.worker.called then s
      else s.(worker := Trying(s.worker.loc, true), calls := s.calls[s.worker.loc := Count(s.calls, s.worker.loc) + 1])
    case Defers =>
      if !s.worker.Trying? || s.worker.called then s else Unclaim(s).(worker := Resting)
    case Fails(permanent, completed) =>
      if !s.worker.Trying? then s else Unclaim(AddFailed(s, permanent, completed)).(worker := Resting)
    case Succeeds =>
      if !s.worker.Trying? || !s.worker.called then s
      else s.(proposed := s.proposed + {s.worker.loc}, status := FixProposed, worker := Resting, clock := s.clock + 2,
              rows := [FixRow(s.clock + 1, false, false, Missing)] + s.rows)
    case ManualFails(permanent, completed) => AddFailed(s, permanent, completed)
    case ManualProposes(loc) => s.(proposed := s.proposed + {loc}, clock := s.clock + 1)
    case StatusWritten(status) => s.(status := status)
    case RetryReset =>
      if s.status.Triaged? then s.(rows := Unfailed(s.rows), calls := map[], unrecorded := map[]) else s
    case Crash(now) => Restarted(s, now)
  }

  /** A crash, then `release_orphaned_claims`: a permanent failed row for each
      report found in `fix_proposing`. */
  function Restarted(s: State, now: int): State {
    var lost := s.worker.Trying? && s.worker.called && !s.status.FixProposing?;
    var r := Unclaim(if s.status.FixProposing? then AddFailed(s, true, At(now)) else s);
    r.(worker := Resting, running := {},
       unrecorded := if lost then s.unrecorded[s.worker.loc := Count(s.unrecorded, s.worker.loc) + 1] else s.unrecorded)
  }

  function Run(s: State, events: seq<Event>): State
    decreases |events|
  {
    if events == [] then s else Next(Run(s, events[..|events| - 1]), events[|events| - 1])
  }

  predicate Initial(s: State) {
    && s.latest.None? && s.running == {} && s.rows == [] && s.worker.Resting?
    && s.calls == map[] && s.unrecorded == map[]
  }

  ghost predicate Reachable(s: State) {
    exists s0: State, events: seq<Event> :: Initial(s0) && s == Run(s0, events)
  }

  // -------------------------------------------------------------- invariant

  /** The bound the gate enforces. An empty list of failures never blocks, so
      a limit of zero still lets one attempt through. */
  function Cap(max: int): int {
    if max > 1 then max else 1
  }

  /** Attempts for a localization that ended and left a row. */
  function Ended(s: State, loc: Stamp): int {
    Count(s.calls, loc) - Count(s.unrecorded, loc) - (if s.worker == Trying(loc, true) then 1 else 0)
  }

  /** Attempts for it that will have used up budget when the worker rests again. */
  function Spent(s: State, loc: Stamp): int {
    Count(s.calls, loc) - Count(s.unrecorded, loc) + (if s.worker == Trying(loc, false) then 1 else 0)
  }

  ghost predicate StampsOk(s: State) {
    && (s.latest.Some? ==> s.latest.value <= s.clock)
    && (forall r <- s.running :: r <= s.clock)
    && (forall loc <- s.calls :: s.calls[loc] > 0 ==> s.latest.Some? && loc <= s.latest.value)
    && (s.worker.Trying? ==> s.latest.Some? && s.worker.loc <= s.latest.value)
  }

  ghost predicate BudgetOk(s: State) {
    && (forall loc: Stamp {:trigger Ended(s, loc)} {:trigger Count(s.calls, loc)} ::
          Ended(s, loc) <= |FailedAfter(s.rows, Some(loc))| || loc in s.proposed)
    && (forall loc: Stamp {:trigger Spent(s, loc)} {:trigger Count(s.calls, loc)} :: Spent(s, loc) <= Cap(s.max))
    && (s.worker.Sampled? && s.latest.Some? ==> Spent(s, s.latest.value) < Cap(s.max))
  }

  ghost predicate Inv(s: State) {
    StampsOk(s) && BudgetOk(s)
  }

  lemma {:induction false} FailedAfterAdds(f: FixRow, rows: seq<FixRow>, reference: Option<Stamp>)
    ensures FailedAfter([f] + rows, reference) ==
            (if Counts(f, reference) then [f] else []) + FailedAfter(rows, reference)
  {
    assert ([f] + rows)[1..] == rows;
  }

  lemma FailureCounts(s: State, permanent: bool, completed: Completed)
    ensures var r := AddFailed(s, permanent, completed);
            forall loc: Stamp :: |FailedAfter(r.rows, Some(loc))| ==
                                 |FailedAfter(s.rows, Some(loc))| + if loc <= s.clock then 1 else 0
  {
    forall loc: Stamp
      ensures |FailedAfter(AddFailed(s, permanent, completed).rows, Some(loc))| ==
              |FailedAfter(s.rows, Some(loc))| + if loc <= s.clock then 1 else 0
    {
      FailedAfterAdds(FixRow(s.clock + 1, true, permanent, completed), s.rows, Some(loc));
    }
  }

  lemma SampleKeeps(s: State, upToDate: bool, now: int)
    requires Inv(s)
    ensures Inv(Next(s, Sample(upToDate, now)))
  {
    if s.worker.Resting? && Eligible(s, upToDate, now) {
      assert Ended(s, s.latest.value) <= |FailedAfter(s.rows, s.latest)|;
    }
  }

  lemma FailKeeps(s: State, permanent: bool, completed: Completed)
    requires Inv(s)
    ensures Inv(Next(s, Fails(permanent, completed)))
  {
    FailureCounts(s, permanent, completed);
    var r := Next(s, Fails(permanent, completed));
    forall loc: Stamp
      ensures Ended(r, loc) <= |FailedAfter(r.rows, Some(loc))| || loc in r.proposed
      ensures Spent(r, loc) <= Cap(r.max)
    {
      assert Ended(s, loc) <= |FailedAfter(s.rows, Some(loc))| || loc in s.proposed;
      assert Spent(s, loc) <= Cap(s.max);
    }
  }

  lemma ManualFailKeeps(s: State, permanent: bool, completed: Completed)
    requires Inv(s)
    ensures Inv(AddFailed(s, permanent, completed))
  {
    FailureCounts(s, permanent, completed);
  }

  lemma RestartKeeps(s: State, now: int)
    requires Inv(s)
    ensures Inv(Restarted(s, now))
  {
    if s.status.FixProposing? {
      var t := AddFailed(s, true, At(now));
      ManualFailKeeps(s, true, At(now));
      FailureCounts(s, true, At(now));
      var r := Restarted(s, now);
      assert r.rows == t.rows && r.calls == t.calls && r.unrecorded == t.unrecorded;
      forall loc: Stamp
        ensures Ended(r, loc) <= |FailedAfter(r.rows, Some(loc))| || loc in r.proposed
        ensures Spent(r, loc) <= Cap(r.max)
      {
        assert Ended(s, loc) <= |FailedAfter(s.rows, Some(loc))| || loc in s.proposed;
        assert Spent(s, loc) <= Cap(s.max);
      }
    } else {
      QuietRestartKeeps(s, now);
    }
  }

  lemma QuietRestartKeeps(s: State, now: int)
    requires Inv(s) && !s.status.FixProposing?
    ensures Inv(Restarted(s, now))
  {
    var r := Restarted(s, now);
    forall loc: Stamp
      ensures Ended(r, loc) <= |FailedAfter(r.rows, Some(loc))| || loc in r.proposed
      ensures Spent(r, loc) <= Cap(r.max)
    {
      assert Ended(s, loc) <= |FailedAfter(s.rows, Some(loc))| || loc in s.proposed;
      assert Spent(s, loc) <= Cap(s.max);
    }
  }

  lemma CallKeeps(s: State)
    requires Inv(s)
    ensures Inv(Next(s, CallsModel))
  {
    var r := Next(s, CallsModel);
    forall loc: Stamp
      ensures Ended(r, loc) <= |FailedAfter(r.rows, Some(loc))| || loc in r.proposed
      ensures Spent(r, loc) <= Cap(r.max)
    {
      assert Ended(s, loc) <= |FailedAfter(s.rows, Some(loc))| || loc in s.proposed;
      assert Spent(s, loc) <= Cap(s.max);
    }
  }

  lemma WorkerKeeps(s: State, e: Event)
    requires Inv(s) && (e.ClaimAndCheck? || e.Defers? || e.Succeeds? || e.ManualProposes? || e.StatusWritten?)
    ensures Inv(Next(s, e))
  {
    var r := Next(s, e);
    forall loc: Stamp
      ensures Ended(r, loc) <= |FailedAfter(r.rows, Some(loc))| || loc in r.proposed
      ensures Spent(r, loc) <= Cap(r.max)
    {
      assert Ended(s, loc) <= |FailedAfter(s.rows, Some(loc))| || loc in s.proposed;
      assert Spent(s, loc) <= Cap(s.max);
    }
  }

  lemma WindowKeeps(s: State, e: Event)
    requires Inv(s) && (e.LocalizationStarts? || e.LocalizationCompletes? || e.RetryReset?)
    ensures Inv(Next(s, e))
  {
    var r := Next(s, e);
    forall loc: Stamp
      ensures Ended(r, loc) <= |FailedAfter(r.rows, Some(loc))| || loc in r.proposed
      ensures Spent(r, loc) <= Cap(r.max)
    {
      assert Ended(s, loc) <= |FailedAfter(s.rows, Some(loc))| || loc in s.proposed;
      assert Spent(s, loc) <= Cap(s.max);
    }
  }

  lemma StepKeeps(s: State, e: Event)
    requires Inv(s)
    ensures Inv(Next(s, e))
  {
    match e
    case Sample(upToDate, now) => SampleKeeps(s, upToDate, now);
    case Fails(permanent, completed) => FailKeeps(s, permanent, completed);
    case ManualFails(permanent, completed) => ManualFailKeeps(s, permanent, completed);
    case Crash(now) => RestartKeeps(s, now);
    case CallsModel => CallKeeps(s);
    case LocalizationStarts => WindowKeeps(s, e);
    case LocalizationCompletes(_) => WindowKeeps(s, e);
    case RetryReset => WindowKeeps(s, e);
    case _ => WorkerKeeps(s, e);
  }

  lemma {:induction false} RunKeeps(s: State, events: seq<Event>)
    requires Inv(s)
    ensures Inv(Run(s, events)) && Run(s, events).max == s.max
    decreases |events|
  {
    if events != [] {
      var r := Run(s, events[..|events| - 1]);
      RunKeeps(s, events[..|events| - 1]);
      StepKeeps(r, events[|events| - 1]);
      assert Run(s, events) == Next(r, events[|events| - 1]);
      LimitStays(r, events[|events| - 1]);
    }
  }

  lemma LimitStays(s: State, e: Event)
    ensures Next(s, e).max == s.max
  {
  }

  lemma ReachableKeeps(s: State)
    requires Reachable(s)
    ensures Inv(s)
  {
    var s0: State, events: seq<Event> :| Initial(s0) && s == Run(s0, events);
    forall loc: Stamp ensures Spent(s0, loc) <= Cap(s0.max) && Ended(s0, loc) <= 0 {}
    RunKeeps(s0, events);
  }

  // ------------------------------------------------------------ main results

  /** For every localization, since the last manual reset, the worker's
      attempts that reached the model are at most `max(1, limit)`, besides
      those whose row a crash lost. */
  lemma AttemptsAreBounded(s: State, loc: Stamp)
    requires Reachable(s)
    ensures Count(s.calls, loc) <= Cap(s.max) + Count(s.unrecorded, loc)
  {
    ReachableKeeps(s);
    assert Spent(s, loc) <= Cap(s.max);
  }

  /** A crash in an attempt that reached the model: if the report is still in
      `fix_proposing`, the restart leaves a permanent failure newer than the
      localization, and the gate blocks from then on; if something had moved
      the report, the rows, and so the gate, are as if there had been no attempt. */
  lemma CrashIsRecordedIff(s: State, now: int, later: int)
    requires Reachable(s) && s.worker.Trying? && s.worker.called
    ensures var r := Next(s, Crash(now)); var loc := Some(s.worker.loc);
            && (r.rows == s.rows <==> !s.status.FixProposing?)
            && (s.status.FixProposing? ==>
                  (exists f <- FailedAfter(r.rows, loc) :: f.permanent)
                  && RetryBlocked(FailedAfter(r.rows, loc), s.max, s.delay, later))
  {
    ReachableKeeps(s);
    if s.status.FixProposing? {
      FailedAfterAdds(FixRow(s.clock + 1, true, true, At(now)), s.rows, Some(s.worker.loc));
      assert FailedAfter(Next(s, Crash(now)).rows, Some(s.worker.loc))[0].permanent;
      assert |Next(s, Crash(now)).rows| == |s.rows| + 1;
    }
  }

  /** A permanent failure since the latest localization. */
  ghost predicate Stopped(s: State, loc: Stamp) {
    s.latest == Some(loc) && exists f <- FailedAfter(s.rows, Some(loc)) :: f.permanent
  }

  /** What the worker may still do for a localization without sampling again. */
  function Due(s: State, loc: Stamp): int {
    if s.worker.Sampled? || s.worker == Trying(loc, false) then 1 else 0
  }

  lemma StoppedStep(s: State, e: Event, loc: Stamp)
    requires Stopped(s, loc) && Next(s, e).latest == Some(loc) && !e.RetryReset?
    ensures Stopped(Next(s, e), loc)
    ensures Count(Next(s, e).calls, loc) + Due(Next(s, e), loc) <= Count(s.calls, loc) + Due(s, loc)
  {
    StoppedStays(s, e, loc);
    if e.Sample? {
      assert RetryBlocked(FailedAfter(s.rows, Some(loc)), s.max, s.delay, e.now);
    } else if e.Crash? {
      assert Restarted(s, e.now).calls == s.calls;
    }
  }

  lemma StoppedStays(s: State, e: Event, loc: Stamp)
    requires Stopped(s, loc) && Next(s, e).latest == Some(loc) && !e.RetryReset?
    ensures Stopped(Next(s, e), loc)
  {
    var f :| f in FailedAfter(s.rows, Some(loc)) && f.permanent;
    var r := Next(s, e);
    if r.rows != s.rows {
      assert r.rows == [r.rows[0]] + s.rows;
      FailedAfterAdds(r.rows[0], s.rows, Some(loc));
    }
    assert f in FailedAfter(r.rows, Some(loc));
  }

  /** After a permanent failure, or one interrupted by a crash, the worker
      makes no further attempt for that localization, except the one it had
      sampled or claimed before the failure. */
  lemma {:induction false} NoneAfterAPermanentFailure(s: State, events: seq<Event>, loc: Stamp)
    requires Stopped(s, loc)
    requires forall n {:trigger events[..n]} :: 0 <= n <= |events| ==> Run(s, events[..n]).latest == Some(loc)
    requires forall e <- events :: !e.RetryReset?
    ensures var t := Run(s, events);
            && Stopped(t, loc)
            && Count(t.calls, loc) + Due(t, loc) <= Count(s.calls, loc) + Due(s, loc)
            && (s.worker.Resting? ==> Count(t.calls, loc) <= Count(s.calls, loc))
    decreases |events|
  {
    if events != [] {
      var before := events[..|events| - 1];
      forall n {:trigger before[..n]} | 0 <= n <= |before| ensures Run(s, before[..n]).latest == Some(loc) {
        assert before[..n] == events[..n];
      }
      NoneAfterAPermanentFailure(s, before, loc);
      assert events[..|events|] == events;
      assert events[|events| - 1] in events;
      StoppedStep(Run(s, before), events[|events| - 1], loc);
    }
  }

  // ---------------------------------------------------- the gate, row by row

  /** A failed row the gate looks at: newer than the localization. */
  predicate Failure(r: FixRow, loc: Stamp) {
    r.failed && loc < r.created
  }

  /** It completed less than the delay ago; a clock that is behind is no excuse. */
  predicate Recent(r: FixRow, delay: int, now: int) {
    r.completed.At? && 0 < delay && now < r.completed.time + delay
  }

  /** The first row of the list, which is the newest, that the gate looks at. */
  predicate NewestFailure(rows: seq<FixRow>, loc: Stamp, i: int) {
    0 <= i < |rows| && Failure(rows[i], loc) && forall j :: 0 <= j < i ==> !Failure(rows[j], loc)
  }

  lemma {:induction false} FirstOfTheFailures(rows: seq<FixRow>, loc: Stamp)
    ensures var failed := FailedAfter(rows, Some(loc));
            if failed == [] then forall r <- rows :: !Failure(r, loc)
            else exists i :: NewestFailure(rows, loc, i) && rows[i] == failed[0]
  {
    if rows != [] {
      var rest := rows[1..];
      FirstOfTheFailures(rest, loc);
      assert rows == [rows[0]] + rest;
      if Failure(rows[0], loc) {
        assert NewestFailure(rows, loc, 0);
      } else if FailedAfter(rest, Some(loc)) != [] {
        var i :| NewestFailure(rest, loc, i) && rest[i] == FailedAfter(rest, Some(loc))[0];
        assert forall j :: 0 < j < |rows| ==> rows[j] == rest[j - 1];
        assert NewestFailure(rows, loc, i + 1);
      }
    }
  }

  lemma NewestIsUnique(rows: seq<FixRow>, loc: Stamp, i: int, j: int)
    requires NewestFailure(rows, loc, i) && NewestFailure(rows, loc, j)
    ensures i == j
  {
  }

  /** The worker takes a report up if and only if it is triaged, up to date and
      localized with no proposal yet, and of the failures since the localization
      none is permanent, the newest is not recent, and they are fewer than the
      limit, if there are any. */
  lemma SampleTakesIff(s: State, upToDate: bool, now: int)
    requires s.worker.Resting?
    ensures Next(s, Sample(upToDate, now)).worker.Sampled? <==>
            && s.status.Triaged? && upToDate && s.latest.Some? && s.latest.value !in s.proposed
            && (forall r <- s.rows :: Failure(r, s.latest.value) ==> !r.permanent)
            && (forall i :: NewestFailure(s.rows, s.latest.value, i) ==> !Recent(s.rows[i], s.delay, now))
            && ((exists r <- s.rows :: Failure(r, s.latest.value)) ==> |FailedAfter(s.rows, s.latest)| < s.max)
    ensures var t := Next(s, Sample(upToDate, now)); t == s.(worker := t.worker) && (t.worker.Sampled? || t == s)
  {
    if s.latest.Some? {
      var loc := s.latest.value;
      FailedAfterIs(s.rows, s.latest);
      FirstOfTheFailures(s.rows, loc);
      var failed := FailedAfter(s.rows, s.latest);
      if failed != [] {
        var i :| NewestFailure(s.rows, loc, i) && s.rows[i] == failed[0];
        forall j | NewestFailure(s.rows, loc, j) ensures j == i {
          NewestIsUnique(s.rows, loc, i, j);
        }
        assert failed[0] in failed;
      }
    }
  }

  /** What was sampled is tried if and only if its report is still triaged and
      localized without a proposal, and the stage finds what it needs; the
      attempt is then of the latest localization, under the stage's claim. A
      report that has its proposal already is moved on to it. */
  lemma SampledIsTriedIff(s: State, ready: bool)
    requires s.worker.Sampled?
    ensures var t := Next(s, ClaimAndCheck(ready));
            && (t.worker.Trying? <==> s.status.Triaged? && s.latest.Some? && s.latest.value !in s.proposed && ready)
            && (t.worker.Trying? ==> t.worker == Trying(s.latest.value, false) && t.status.FixProposing?)
            && (t.worker.Trying? || t.worker.Resting?)
            && t.rows == s.rows && t.calls == s.calls && t.proposed == s.proposed
            && t.status == (if t.worker.Trying? then FixProposing
                            else if s.status.Triaged? && s.latest.Some? && s.latest.value in s.proposed then FixProposed
                            else s.status)
  {
  }

  /** How an attempt ends: a failure leaves one more row the gate looks at, with
      its kind and time; a success leaves a proposal, and so no further attempt
      for the localization; an attempt that was put off leaves neither. */
  lemma AttemptLeaves(s: State, permanent: bool, completed: Completed)
    requires Reachable(s) && s.worker.Trying?
    ensures var loc := s.worker.loc; var t := Next(s, Fails(permanent, completed));
            && t.worker.Resting? && |t.rows| == |s.rows| + 1 && t.rows[1..] == s.rows
            && Failure(t.rows[0], loc) && t.rows[0].permanent == permanent && t.rows[0].completed == completed
            && t.status == (if s.status.FixProposing? then Triaged else s.status) && t.calls == s.calls
    ensures s.worker.called ==>
              var t := Next(s, Succeeds);
              && s.worker.loc in t.proposed && t.worker.Resting? && t.status.FixProposed?
              && FailedAfter(t.rows, Some(s.worker.loc)) == FailedAfter(s.rows, Some(s.worker.loc))
    ensures !s.worker.called ==>
              var t := Next(s, Defers);
              t == s.(worker := Resting, status := if s.status.FixProposing? then Triaged else s.status)
    ensures !s.worker.called ==>
              var t := Next(s, CallsModel);
              && t.worker == Trying(s.worker.loc, true)
              && Count(t.calls, s.worker.loc) == Count(s.calls, s.worker.loc) + 1
  {
    ReachableKeeps(s);
    FailedAfterAdds(FixRow(s.clock + 1, false, false, Missing), s.rows, Some(s.worker.loc));
  }

  /** A manual retry of a triaged report clears every failure, and nothing but failures. */
  lemma ResetClears(s: State)
    requires s.status.Triaged?
    ensures var t := Next(s, RetryReset);
            && (forall r :: r in t.rows <==> r in s.rows && !r.failed)
            && t.proposed == s.proposed && t.latest == s.latest && t.status == s.status
  {
    UnfailedIs(s.rows);
  }

  lemma {:induction false} UnfailedIs(rows: seq<FixRow>)
    ensures forall r :: r in Unfailed(rows) <==> r in rows && !r.failed
  {
    if rows != [] {
      UnfailedIs(rows[1..]);
      assert rows == [rows[0]] + rows[1..];
    }
  }

  // ------------------------------------------------------ what can go wrong

  lemma RunSnoc(s: State, events: seq<Event>, e: Event)
    ensures Run(s, events + [e]) == Next(Run(s, events), e)
  {
    assert (events + [e])[..|events + [e]| - 1] == events;
  }

  /** Localized and triaged, nothing tried yet. */
  function Ready(max: int, delay: int): State {
    State(max, delay, 1, Triaged, Some(1), {}, [], {}, Resting, map[], map[])
  }

  lemma {:induction false} RunConcat(s: State, xs: seq<Event>, ys: seq<Event>)
    ensures Run(s, xs + ys) == Run(Run(s, xs), ys)
    decreases |ys|
  {
    if ys == [] {
      assert xs + ys == xs;
    } else {
      var before := ys[..|ys| - 1];
      assert xs + ys == (xs + before) + [ys[|ys| - 1]];
      RunSnoc(s, xs + before, ys[|ys| - 1]);
      RunConcat(s, xs, before);
    }
  }

  /** Whatever is run from there is reachable. */
  lemma ReachableFromReady(max: int, delay: int, events: seq<Event>)
    ensures Reachable(Run(Ready(max, delay), events))
  {
    var s0 := State(max, delay, 0, Triaged, None, {}, [], {}, Resting, map[], map[]);
    var start := [LocalizationStarts] + [LocalizationCompletes(1)];
    RunSnoc(s0, [], LocalizationStarts);
    RunSnoc(s0, [LocalizationStarts], LocalizationCompletes(1));
    assert [] + [LocalizationStarts] == [LocalizationStarts];
    RunConcat(s0, start, events);
    assert Initial(s0) && Run(Ready(max, delay), events) == Run(s0, start + events);
  }

  /** The exception happens: sampled, then a manual attempt fails for good,
      then the sampled task runs and calls the model anyway. */
  lemma StaleSampleCallsTheModel(max: int, delay: int)
    ensures var s := Run(Ready(max, delay), [Sample(true, 0), ManualFails(true, Missing)]);
            Reachable(s) && Stopped(s, 1) && Count(s.calls, 1) == 0
    ensures var s := Run(Ready(max, delay), [Sample(true, 0), ManualFails(true, Missing), ClaimAndCheck(true),
                                             CallsModel]);
            Reachable(s) && Stopped(s, 1) && Count(s.calls, 1) == 1
  {
    var r := Ready(max, delay);
    var a, b, c, d := Sample(true, 0), ManualFails(true, Missing), ClaimAndCheck(true), CallsModel;
    RunSnoc(r, [], a);
    RunSnoc(r, [a], b);
    RunSnoc(r, [a, b], c);
    RunSnoc(r, [a, b, c], d);
    assert [] + [a] == [a] && [a] + [b] == [a, b] && [a, b] + [c] == [a, b, c] && [a, b, c] + [d] == [a, b, c, d];
    FailsForGood(max, delay);
    StaleSampleRuns(max, delay);
    ReachableFromReady(max, delay, [a, b]);
    ReachableFromReady(max, delay, [a, b, c, d]);
  }

  /** A manual attempt has failed for good; the worker holds its sample. */
  function Stale(max: int, delay: int): State {
    Ready(max, delay).(clock := 2, rows := [FixRow(2, true, true, Missing)], worker := Sampled)
  }

  lemma FailsForGood(max: int, delay: int)
    ensures Next(Next(Ready(max, delay), Sample(true, 0)), ManualFails(true, Missing)) == Stale(max, delay)
    ensures Stopped(Stale(max, delay), 1)
  {
    var f := FixRow(2, true, true, Missing);
    FailedAfterAdds(f, [], Some(1));
    assert FailedAfter([f], Some(1))[0].permanent;
  }

  lemma StaleSampleRuns(max: int, delay: int)
    ensures Next(Next(Stale(max, delay), ClaimAndCheck(true)), CallsModel)
         == Stale(max, delay).(status := FixProposing, worker := Trying(1, true), calls := map[1 := 1])
  {
  }

  /** One attempt whose report is moved back to `triaged` by hand, then a crash. */
  const LOST: seq<Event> := [Sample(true, 0), ClaimAndCheck(true), CallsModel, StatusWritten(Triaged), Crash(0)]

  /** `n` attempts that reached the model, none of them recorded. */
  function AfterLost(max: int, delay: int, n: nat): State {
    if n == 0 then Ready(max, delay) else Ready(max, delay).(calls := map[1 := n], unrecorded := map[1 := n])
  }

  function Five(s: State): State {
    Next(Next(Next(Next(Next(s, LOST[0]), LOST[1]), LOST[2]), LOST[3]), LOST[4])
  }

  lemma OneLost(max: int, delay: int, n: nat)
    ensures Five(AfterLost(max, delay, n)) == AfterLost(max, delay, n + 1)
  {
    var s := Next(Next(Next(AfterLost(max, delay, n), LOST[0]), LOST[1]), LOST[2]);
    assert s == AfterLost(max, delay, n).(status := FixProposing, worker := Trying(1, true), calls := map[1 := n + 1]);
  }

  lemma RunFive(s: State, r: seq<Event>) returns (longer: seq<Event>)
    ensures Run(s, longer) == Five(Run(s, r))
  {
    RunSnoc(s, r, LOST[0]);
    RunSnoc(s, r + [LOST[0]], LOST[1]);
    RunSnoc(s, r + [LOST[0]] + [LOST[1]], LOST[2]);
    RunSnoc(s, r + [LOST[0]] + [LOST[1]] + [LOST[2]], LOST[3]);
    RunSnoc(s, r + [LOST[0]] + [LOST[1]] + [LOST[2]] + [LOST[3]], LOST[4]);
    longer := r + [LOST[0]] + [LOST[1]] + [LOST[2]] + [LOST[3]] + [LOST[4]];
  }

  lemma {:induction false} LostAttempts(max: int, delay: int, n: nat) returns (events: seq<Event>)
    ensures Run(Ready(max, delay), events) == AfterLost(max, delay, n)
  {
    if n == 0 {
      events := [];
    } else {
      var before := LostAttempts(max, delay, n - 1);
      events := RunFive(Ready(max, delay), before);
      OneLost(max, delay, n - 1);
    }
  }

  /** `LOST` can be repeated without end: whatever the limit and the delay, the
      gate never sees those attempts. */
  lemma LostAttemptsAreUnbounded(max: int, delay: int, n: nat) returns (s: State)
    ensures Reachable(s) && s.max == max && s.delay == delay && Count(s.calls, 1) == n && s.rows == []
  {
    var events := LostAttempts(max, delay, n);
    s := Run(Ready(max, delay), events);
    ReachableFromReady(max, delay, events);
    assert Count(AfterLost(max, delay, n).calls, 1) == n;
  }

  // ------------------------------------------------------ the gate's loops

  /** `_failed_attempts_after`, over rows newest first. */
  method FailedAttemptsAfter(rows: seq<FixRow>, reference: Option<Stamp>) returns (out: seq<FixRow>)
    ensures out == FailedAfter(rows, reference)
    ensures forall f :: f in out <==> f in rows && f.failed && (reference.None? || f.created > reference.value)
  {
    out := [];
    var i := 0;
    while i < |rows|
      invariant 0 <= i <= |rows|
      invariant FailedAfter(rows, reference) == out + FailedAfter(rows[i..], reference)
    {
      if rows[i].failed && (reference.None? || rows[i].created > reference.value) {
        out := out + [rows[i]];
      }
      i := i + 1;
    }
    FailedAfterIs(rows, reference);
  }

  /** Exactly the failed rows newer than the reference, if there is one. */
  lemma {:induction false} FailedAfterIs(rows: seq<FixRow>, reference: Option<Stamp>)
    ensures forall f :: f in FailedAfter(rows, reference) <==> f in rows && Counts(f, reference)
  {
    if rows != [] {
      FailedAfterIs(rows[1..], reference);
      assert rows == [rows[0]] + rows[1..];
    }
  }

  method IsBlocked(failed: seq<FixRow>, max: int, delay: int, now: int) returns (blocked: bool)
    ensures blocked <==> RetryBlocked(failed, max, delay, now)
    ensures blocked <==>
            && failed != []
            && ((exists f <- failed :: f.permanent) || |failed| >= max || Recent(failed[0], delay, now))
  {
    if |failed| == 0 {
      return false;
    }
    for i := 0 to |failed|
      invariant forall f <- failed[..i] :: !f.permanent
    {
      if failed[i].permanent {
        return true;
      }
      assert failed[..i + 1] == failed[..i] + [failed[i]];
    }
    assert failed[..|failed|] == failed;
    if |failed| >= max {
      return true;
    }
    if !failed[0].completed.At? {
      return false;
    }
    var elapsed := now - failed[0].completed.time;
    if elapsed < 0 {
      elapsed := 0;
    }
    return elapsed < delay;
  }
}
