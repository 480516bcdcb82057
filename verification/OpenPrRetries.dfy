/** Retries of open-pr: what any of them that finishes has done, exactly when
    one can finish, and the runs in which things go wrong. */
module OpenPrRetries {
  import opened Common
  import opened Workflow
  import opened OpenPr
  import opened OpenPrSafety
  import opened OpenPrResults

  // ------------------------------------------------- whatever happens between

  lemma CallKeepsBranch(s: State, t: Token, step: CallStep)
    requires t in s.calls && s.branch.Some?
    ensures RunCall(s, t, step).branch == s.branch && RunCall(s, t, step).pushes == s.pushes
  {
    if step.CreateEnded? || step.CommitsRead? {
      RecordingKeepsBranch(s, t, step);
    }
  }

  lemma RecordingKeepsBranch(s: State, t: Token, step: CallStep)
    requires t in s.calls && (step.CreateEnded? || step.CommitsRead?)
    ensures RunCall(s, t, step).branch == s.branch && RunCall(s, t, step).pushes == s.pushes
  {
    var c := s.calls[t];
    if step.CommitsRead? {
      if c.pc.Found? && ReadsCommits(s, c.pc.pr, step) {
        var owner := ResolveOwner(c.snap, s.prs[c.pc.pr].head, step.commits);
        if owner.Some? {
          FinalizeLeavesTheRemote(s, t, owner.value, c.pc.pr, None, false);
        } else if c.requested.Some? {
          FinalizeLeavesTheRemote(s, t, c.requested.value, c.pc.pr, None, false);
        }
      }
    } else if c.pc.Creating? && step.arrived && s.branch.Some? && !Open(s.prs) {
      FinalizeLeavesTheRemote(AddPr(At(s, t, Ending)), t, c.pc.owner, |s.prs|, Some(c.pc.sha), true);
    }
  }

  lemma {:induction false} BranchStays(s: State, events: seq<Event>)
    requires s.branch.Some?
    ensures Run(s, events).branch == s.branch && Run(s, events).pushes == s.pushes
    decreases |events|
  {
    if events != [] {
      var r := Run(s, events[..|events| - 1]);
      var e := events[|events| - 1];
      BranchStays(s, events[..|events| - 1]);
      if e.On? {
        if e.call in r.calls {
          CallKeepsBranch(r, e.call, e.step);
        }
      } else {
        OtherKeepsBranch(r, e);
      }
    }
  }

  lemma OtherKeepsBranch(s: State, e: Event)
    requires !e.On? && s.branch.Some?
    ensures Next(s, e).branch == s.branch && Next(s, e).pushes == s.pushes
  {
  }

  lemma FinalizedMeansRecorded(s: State, t: Token)
    requires Inv(s) && t in s.calls && s.calls[t].finalized
    ensures s.branch.Some? && Recorded(s.proposals) == Some(s.branch.value.proposal)
  {
    assert CallOk(s, s.calls[t]);
    RecordedIsFound(s);
  }

  /** Once the branch is pushed, with or without a PR: any call that ends
      finalized, however it, other calls and the environment interleave, has
      recorded a PR of that branch on the proposal whose commit it carries,
      whatever proposal was asked for, and nothing was pushed again. */
  lemma RetryFinishesOnTheBranch(s: State, events: seq<Event>, t: Token)
    requires Reachable(s) && s.branch.Some?
    requires t in Run(s, events).calls && Run(s, events).calls[t].finalized
    ensures var r := Run(s, events); var author := s.branch.value.proposal;
            && Recorded(r.proposals) == Some(author) && author in r.proposals.rows && r.proposals.rows[author].pr.Some?
            && r.proposals.rows[author].pr.value < |r.prs|
            && r.prs[r.proposals.rows[author].pr.value].head == s.branch.value
            && r.branch == s.branch && r.pushes == s.pushes
  {
    ReachableKeeps(s);
    RunKeeps(s, events);
    BranchStays(s, events);
    var r := Run(s, events);
    FinalizedMeansRecorded(r, t);
    HeadsAgree(r);
  }

  // ------------------------------------------------------- an answered retry

  /** No call is live and the report can be claimed or adopted. */
  ghost predicate Claimable(s: State, requested: Option<Pid>) {
    && s.active.None? && s.starting.None? && !HasRecord(s) && s.proposals.order != []
    && (s.status.FixProposed? || s.status.FixApproved?)
    && (requested.Some? ==> requested.value in s.proposals.rows)
  }

  function Chosen(s: State, requested: Option<Pid>): Pid
    requires s.proposals.order != []
  {
    if requested.Some? then requested.value else s.proposals.order[0]
  }

  /** The state when a call has claimed, registered and read the proposals. */
  function Begun(s: State, token: Token, requested: Option<Pid>): State
    requires s.proposals.order != []
  {
    s.(status := FixApproved, token := Some(token), active := Some(token), used := s.used + {token},
       calls := s.calls[token := Call(requested, Chosen(s, requested), s.proposals, Finding, false, false, false)])
  }

  function Beginning(token: Token, requested: Option<Pid>): seq<Event> {
    [Check(token, requested, true), ClaimCas, Register, On(token, Begin)]
  }

  lemma CallBegins(s: State, token: Token, requested: Option<Pid>)
    requires ProposalsOk(s) && Claimable(s, requested) && token !in s.used
    ensures Run(s, Beginning(token, requested)) == Begun(s, token, requested)
  {
    RecordedIsFound(s);
    var start := Start(token, requested, Chosen(s, requested), s.status, s.token, false);
    var s1 := s.(starting := Some(start), used := s.used + {token});
    assert CheckOpen(s, token, requested, true) == s1;
    assert Next(s, Check(token, requested, true)) == s1;
    ClaimAndRegister(s1);
    Four(s, Check(token, requested, true), ClaimCas, Register, On(token, Begin));
  }

  lemma ClaimAndRegister(s: State)
    requires s.starting.Some? && !s.starting.value.claimed
    requires s.starting.value.status == s.status && s.starting.value.observed == s.token
    requires s.status.FixProposed? || s.status.FixApproved?
    ensures var b := s.starting.value;
            Next(Next(Next(s, ClaimCas), Register), On(b.token, Begin)) ==
            s.(status := FixApproved, token := Some(b.token), active := Some(b.token), starting := None,
               calls := s.calls[b.token := NewCall(b).(snap := s.proposals, pc := Finding)])
  {
    var b := s.starting.value;
    var c := Next(s, ClaimCas);
    assert c.starting == Some(b.(claimed := true));
    var r := Next(c, Register);
    assert r.starting.None? && r.calls[b.token].pc.Waiting?;
  }

  lemma RunSnoc(s: State, events: seq<Event>, e: Event)
    ensures Run(s, events + [e]) == Next(Run(s, events), e)
  {
    assert (events + [e])[..|events + [e]| - 1] == events;
  }

  lemma {:induction false} RunConcat(s: State, xs: seq<Event>, ys: seq<Event>)
    ensures Run(s, xs + ys) == Run(Run(s, xs), ys)
    decreases |ys|
  {
    if ys == [] {
      assert xs + ys == xs;
    } else {
      var before := ys[..|ys| - 1];
      assert xs + ys == (xs + before) + [ys[|ys| - 1]];
      RunSnoc(s, xs + before, ys[|ys| - 1]);
      RunConcat(s, xs, before);
    }
  }

  lemma Three(s: State, a: Event, b: Event, c: Event)
    ensures Run(s, [a, b, c]) == Next(Next(Next(s, a), b), c)
  {
    RunSnoc(s, [], a);
    RunSnoc(s, [a], b);
    RunSnoc(s, [a, b], c);
    assert [] + [a] == [a] && [a] + [b] == [a, b] && [a, b] + [c] == [a, b, c];
  }

  lemma Four(s: State, a: Event, b: Event, c: Event, d: Event)
    ensures Run(s, [a, b, c, d]) == Next(Next(Next(Next(s, a), b), c), d)
  {
    Three(s, a, b, c);
    RunSnoc(s, [a, b, c], d);
    assert [a, b, c] + [d] == [a, b, c, d];
  }

  /** From there, with a PR listed. */
  lemma BegunRecords(s: State, token: Token, requested: Option<Pid>, commits: seq<Commit>)
    requires ProposalsOk(s) && RemoteOk(s) && Claimable(s, requested)
    requires s.prs != [] && Listing(s.prs[|s.prs| - 1].head, commits)
    ensures var f := Next(Begun(s, token, requested), On(token, FindAnswered(true, true)));
            var r := Next(f, On(token, CommitsRead(true, commits)));
            r.status.FixCommitted? && token in r.calls && r.calls[token].finalized
  {
    var f := Next(Begun(s, token, requested), On(token, FindAnswered(true, true)));
    assert f.calls[token].pc == Found(|s.prs| - 1) && f.calls[token].snap == s.proposals;
    assert s.prs[|s.prs| - 1] in s.prs;
    OwnerIsTheAuthor(s.proposals, s.prs[|s.prs| - 1].head, commits);
  }

  /** If a PR exists that was never recorded, a retry whose requests are
      answered does finish: the previous result then says what it recorded. */
  lemma RetryCanRecord(s: State, token: Token, requested: Option<Pid>, commits: seq<Commit>)
    requires Reachable(s) && Claimable(s, requested) && token !in s.used
    requires s.prs != [] && Listing(s.prs[|s.prs| - 1].head, commits)
    ensures var b := Run(s, Beginning(token, requested));
            var r := Next(Next(b, On(token, FindAnswered(true, true))), On(token, CommitsRead(true, commits)));
            r.status.FixCommitted? && token in r.calls && r.calls[token].finalized
  {
    ReachableKeeps(s);
    CallBegins(s, token, requested);
    BegunRecords(s, token, requested, commits);
  }

  /** Whether a retry for `requested` may go on from the pushed branch. */
  predicate Resumable(s: State, requested: Option<Pid>) {
    Matched(s.proposals.rows, s.branch) && (requested.None? || requested.value == s.branch.value.proposal)
  }

  lemma PusherIff(s: State)
    requires ProposalsOk(s) && RemoteOk(s) && s.branch.Some?
    ensures Pusher(s.proposals.order, s.proposals.rows, s.branch.value) ==
            if Matched(s.proposals.rows, s.branch) then Some(s.branch.value.proposal) else None
  {
  }

  /** From there, with the branch pushed and no PR. */
  lemma BegunResumesIff(s: State, token: Token, requested: Option<Pid>)
    requires ProposalsOk(s) && RemoteOk(s) && Claimable(s, requested) && s.prs == [] && s.branch.Some?
    ensures var f := Next(Begun(s, token, requested), On(token, FindAnswered(true, true)));
            var g := Next(f, On(token, TipRead(true)));
            && token in f.calls && !f.calls[token].finalized
            && g == Put(Begun(s, token, requested), token, f.calls[token].(pc :=
              if Resumable(s, requested) then Creating(s.branch.value.proposal, s.branch.value) else Ending))
  {
    var b := Begun(s, token, requested);
    BegunFindsNoPr(s, token, requested);
    PusherIff(s);
    ReadsTheTip(Put(b, token, b.calls[token].(pc := NoPr)), token);
  }

  lemma BegunFindsNoPr(s: State, token: Token, requested: Option<Pid>)
    requires Claimable(s, requested) && s.prs == []
    ensures var b := Begun(s, token, requested);
            Next(b, On(token, FindAnswered(true, true))) == Put(b, token, b.calls[token].(pc := NoPr))
  {
  }

  lemma ReadsTheTip(s: State, t: Token)
    requires t in s.calls && s.calls[t].pc.NoPr? && s.starting.None? && s.branch.Some?
    ensures var c := s.calls[t]; var pusher := Pusher(c.snap.order, c.snap.rows, s.branch.value);
            Next(s, On(t, TipRead(true))) == Put(s, t, c.(pc :=
              if pusher.None? || (c.requested.Some? && c.requested != pusher) then Ending
              else Creating(pusher.value, s.branch.value)))
  {
  }

  /** If the branch was pushed and no PR was opened, an answered retry finishes
      if and only if the tip is still its author's recorded intent and the
      retry asks for that proposal or for none. */
  lemma RetryResumesIff(s: State, token: Token, requested: Option<Pid>)
    requires Reachable(s) && Claimable(s, requested) && token !in s.used && s.prs == [] && s.branch.Some?
    ensures var b := Run(s, Beginning(token, requested));
            var g := Next(Next(b, On(token, FindAnswered(true, true))), On(token, TipRead(true)));
            var r := Next(g, On(token, CreateEnded(true, true)));
            && token in r.calls && (r.calls[token].finalized <==> Resumable(s, requested))
            && r.prs == (if Resumable(s, requested) then [Pr(s.branch.value, true)] else [])
  {
    ReachableKeeps(s);
    CallBegins(s, token, requested);
    BegunResumesIff(s, token, requested);
    var f := Next(Begun(s, token, requested), On(token, FindAnswered(true, true)));
    LastStep(s, token, requested, f.calls[token]);
  }

  lemma LastStep(s: State, token: Token, requested: Option<Pid>, c: Call)
    requires RemoteOk(s) && Claimable(s, requested) && s.prs == [] && s.branch.Some? && !c.finalized
    ensures var pc := if Resumable(s, requested) then Creating(s.branch.value.proposal, s.branch.value) else Ending;
            var r := Next(Put(Begun(s, token, requested), token, c.(pc := pc)), On(token, CreateEnded(true, true)));
            && token in r.calls && (r.calls[token].finalized <==> Resumable(s, requested))
            && r.prs == (if Resumable(s, requested) then [Pr(s.branch.value, true)] else [])
  {
    if Resumable(s, requested) {
      var pc := Creating(s.branch.value.proposal, s.branch.value);
      CreatesAndRecords(Put(Begun(s, token, requested), token, c.(pc := pc)), token);
    }
  }

  lemma CreatesAndRecords(s: State, t: Token)
    requires t in s.calls && s.starting.None? && s.prs == [] && s.branch.Some? && Holds(s, t)
    requires s.calls[t].pc == Creating(s.branch.value.proposal, s.branch.value)
    requires s.branch.value.proposal in s.proposals.rows
    ensures var r := Next(s, On(t, CreateEnded(true, true)));
            r.prs == [Pr(s.branch.value, true)] && t in r.calls && r.calls[t].finalized
  {
  }

  // ---------------------------------------------------------- stranded branch

  /** The branch's tip matches no recorded intent, and no call is building a commit. */
  predicate Stranded(s: State) {
    && s.branch.Some? && !Matched(s.proposals.rows, s.branch)
    && forall t <- s.calls :: !s.calls[t].pc.Building?
  }

  lemma StrandedHasNoPr(s: State)
    requires Inv(s) && Stranded(s)
    ensures s.prs == [] && s.pendingCreates == 0 && Recorded(s.proposals).None?
    ensures forall t <- s.calls :: !s.calls[t].pc.Creating? && !s.calls[t].pc.Found?
  {
    RecordedIsFound(s);
    forall t | t in s.calls ensures !s.calls[t].pc.Creating? && !s.calls[t].pc.Found? {
      assert CallOk(s, s.calls[t]);
    }
  }

  lemma StrandedCall(s: State, t: Token, step: CallStep)
    requires Stranded(s) && s.prs == [] && t in s.calls && !s.calls[t].pc.Creating? && !s.calls[t].pc.Found?
    ensures Stranded(RunCall(s, t, step))
  {
    var c := s.calls[t];
    if step.CommitBuilt? || step.CreateEnded? || step.CommitsRead? {
      assert RunCall(s, t, step) == s;
    } else if step.TipRead? {
      StrandedTip(s, t, step.ok);
    } else if step.PushEnded? {
      StrandedPush(s, t, step.arrived, step.answered);
    } else if step.Release? {
      StrandedRelease(s, t, step.ok);
    } else if step.Leave? || step.Abort? {
      StrandedEnd(s, t, step);
    } else {
      StrandedFind(s, t, step);
    }
  }

  lemma StrandedPush(s: State, t: Token, arrived: bool, answered: bool)
    requires Stranded(s) && t in s.calls
    ensures Stranded(RunCall(s, t, PushEnded(arrived, answered)))
  {
    var r := RunCall(s, t, PushEnded(arrived, answered));
    assert r == s || (r == At(s, t, r.calls[t].pc) && !r.calls[t].pc.Building?);
  }

  lemma StrandedRelease(s: State, t: Token, ok: bool)
    requires Stranded(s) && t in s.calls
    ensures Stranded(RunCall(s, t, Release(ok)))
  {
    var r := RunCall(s, t, Release(ok));
    assert r == s || (r.branch == s.branch && r.proposals == s.proposals && r.calls == At(s, t, Leaving).calls);
  }

  lemma StrandedFind(s: State, t: Token, step: CallStep)
    requires Stranded(s) && t in s.calls && (step.Begin? || step.FindAnswered? || step.FoundAgain?)
    ensures Stranded(RunCall(s, t, step))
  {
  }

  lemma StrandedTip(s: State, t: Token, ok: bool)
    requires Stranded(s) && t in s.calls
    ensures Stranded(RunCall(s, t, TipRead(ok)))
  {
    var r := RunCall(s, t, TipRead(ok));
    assert r == s || (r == At(s, t, r.calls[t].pc) && !r.calls[t].pc.Building?);
  }

  lemma StrandedEnd(s: State, t: Token, step: CallStep)
    requires Stranded(s) && t in s.calls && (step.Leave? || step.Abort?)
    ensures Stranded(RunCall(s, t, step))
  {
  }

  lemma StrandedOtherwise(s: State, e: Event)
    requires Stranded(s) && !e.On? && s.branch.value.proposal in s.proposals.rows
    ensures Stranded(Next(s, e))
  {
    if e.Check? {
      CheckWritesNothing(s, e.token, e.requested, e.configured);
    } else if e.ClaimCas? || e.Register? {
      StrandedStart(s, e);
    } else if e.ProposalAdded? || e.PrClosed? || e.LatePush? || e.LateCreate? || e.Crash? {
      StrandedByTheWorld(s, e);
    } else {
      RequestsWriteTheReport(s, e);
    }
  }

  lemma StrandedStart(s: State, e: Event)
    requires Stranded(s) && (e.ClaimCas? || e.Register?)
    ensures Stranded(Next(s, e))
  {
  }

  /** The other routes and stages write the report's own row and nothing else. */
  lemma RequestsWriteTheReport(s: State, e: Event)
    requires e.DeleteRead? || e.DeleteCheck? || e.DeleteWrite? || e.PatchRead? || e.PatchWrite? || e.StatusWritten?
    ensures var r := Next(s, e);
            r == s.(status := r.status, deleted := r.deleted, deletes := r.deletes, patches := r.patches)
  {
  }

  lemma CheckWritesNothing(s: State, token: Token, requested: Option<Pid>, configured: bool)
    ensures var r := CheckOpen(s, token, requested, configured);
            r == s.(starting := r.starting, used := r.used, replies := r.replies)
  {
  }

  lemma StrandedByTheWorld(s: State, e: Event)
    requires Stranded(s) && s.branch.value.proposal in s.proposals.rows
    requires e.ProposalAdded? || e.PrClosed? || e.LatePush? || e.LateCreate? || e.Crash?
    ensures Stranded(Next(s, e))
  {
  }

  lemma StrandedStep(s: State, e: Event)
    requires Inv(s) && Stranded(s)
    ensures Stranded(Next(s, e))
  {
    if !e.On? {
      StrandedOtherwise(s, e);
    } else if e.call in s.calls && s.starting.None? {
      StrandedHasNoPr(s);
      StrandedCall(s, e.call, e.step);
    }
  }

  lemma {:induction false} StaysStranded(s: State, events: seq<Event>)
    requires Inv(s) && Stranded(s)
    ensures var r := Run(s, events);
            Inv(r) && Stranded(r)
    decreases |events|
  {
    if events != [] {
      var r := Run(s, events[..|events| - 1]);
      StaysStranded(s, events[..|events| - 1]);
      StepKeeps(r, events[|events| - 1]);
      StrandedStep(r, events[|events| - 1]);
    }
  }

  /** A branch once stranded stays so: no later run opens or records a PR. */
  lemma StrandedForGood(s: State, events: seq<Event>)
    requires Reachable(s) && Stranded(s)
    ensures Stranded(Run(s, events)) && Run(s, events).prs == [] && Recorded(Run(s, events).proposals).None?
  {
    ReachableKeeps(s);
    StaysStranded(s, events);
    StrandedHasNoPr(Run(s, events));
  }

  lemma ReachableGoesOn(s: State, events: seq<Event>)
    requires Reachable(s)
    ensures Reachable(Run(s, events))
  {
    var s0: State, before: seq<Event> :| Initial(s0) && s == Run(s0, before);
    RunConcat(s0, before, events);
  }

  /** Longer than every token drawn so far. */
  lemma {:induction false} FreshToken(used: set<Token>) returns (t: Token)
    ensures t !in used && forall u <- used :: |u| < |t|
    decreases used
  {
    if used == {} {
      t := "t";
    } else {
      var u :| u in used;
      t := FreshToken(used - {u});
      if |u| >= |t| {
        t := u + "t";
      }
    }
  }

  const RESTART := [Crash, StatusWritten(FixProposed, None)]

  /** After a crash, and with the report back in `fix_proposed`, a retry may begin. */
  lemma RestartIsClaimable(s: State)
    requires ProposalsOk(s) && Matched(s.proposals.rows, s.branch) && Recorded(s.proposals).None?
    ensures var r := Run(s, RESTART);
            && Claimable(r, None) && r.proposals == s.proposals && r.branch == s.branch && r.prs == s.prs
  {
    RunSnoc(s, [], Crash);
    RunSnoc(s, [Crash], StatusWritten(FixProposed, None));
    assert [] + [Crash] == [Crash] && [Crash] + [StatusWritten(FixProposed, None)] == RESTART;
    RecordedIsFound(s);
  }

  /** What an answered retry for no particular proposal goes through. */
  function AnsweredRetry(s: State, token: Token): seq<Event> {
    var found := On(token, FindAnswered(true, true));
    if s.prs == [] then [found, On(token, TipRead(true)), On(token, CreateEnded(true, true))]
    else [found, On(token, CommitsRead(true, [Ours(s.prs[|s.prs| - 1].head)]))]
  }

  lemma RetryFinishes(s: State, token: Token)
    requires Reachable(s) && Claimable(s, None) && token !in s.used && Matched(s.proposals.rows, s.branch)
    ensures var r := Run(Run(s, Beginning(token, None)), AnsweredRetry(s, token));
            token in r.calls && r.calls[token].finalized
  {
    var b := Run(s, Beginning(token, None));
    var a := AnsweredRetry(s, token);
    if s.prs == [] {
      RetryResumesIff(s, token, None);
      Three(b, a[0], a[1], a[2]);
    } else {
      RetryCanRecord(s, token, None, [Ours(s.prs[|s.prs| - 1].head)]);
      RunSnoc(b, [], a[0]);
      RunSnoc(b, [a[0]], a[1]);
      assert [] + [a[0]] == [a[0]] && [a[0]] + [a[1]] == a;
    }
  }

  /** While a recorded intent is the branch's tip, some run records its PR. */
  lemma MatchedCanRecord(s: State) returns (events: seq<Event>)
    requires Reachable(s) && Matched(s.proposals.rows, s.branch)
    ensures Recorded(Run(s, events).proposals).Some?
  {
    if Recorded(s.proposals).Some? {
      events := [];
    } else {
      ReachableKeeps(s);
      RestartIsClaimable(s);
      ReachableGoesOn(s, RESTART);
      var r := Run(s, RESTART);
      var token := FreshToken(r.used);
      RetryFinishes(r, token);
      events := RESTART + Beginning(token, None) + AnsweredRetry(r, token);
      RunConcat(s, RESTART, Beginning(token, None));
      RunConcat(s, RESTART + Beginning(token, None), AnsweredRetry(r, token));
      ReachableGoesOn(s, events);
      ReachableKeeps(Run(s, events));
      FinalizedMeansRecorded(Run(s, events), token);
    }
  }

  /** A pushed branch that no call is building a commit for is lost, whatever
      happens later, if and only if no recorded intent is its tip. */
  lemma StrandedForGoodIff(s: State)
    requires Reachable(s) && s.branch.Some? && forall t <- s.calls :: !s.calls[t].pc.Building?
    ensures (forall p <- s.proposals.rows :: s.proposals.rows[p].pushed != s.branch) <==>
            (forall events: seq<Event> :: Recorded(Run(s, events).proposals).None?)
  {
    ReachableKeeps(s);
    if Matched(s.proposals.rows, s.branch) {
      var events := MatchedCanRecord(s);
    } else {
      forall events: seq<Event> ensures Recorded(Run(s, events).proposals).None? {
        StrandedForGood(s, events);
      }
    }
  }

  // ------------------------------------------------------ what can go wrong

  /** A report in `fix_proposed` with one proposal, and nothing on the remote. */
  const FRESH := State(FixProposed, None, false, Proposals([], map[]), None, None, map[], map[], map[],
                       None, [], {}, 0, 0, {}, {}, [])

  const FIRST := Sha("p", 0)
  const SECOND := Sha("p", 1)

  /** Its one proposal, with this intent. */
  function One(pushed: Option<Sha>): Proposals {
    Proposals(["p"], map["p" := Proposal(pushed, None)])
  }

  const STARTED := FRESH.(proposals := One(None))

  /** After a crash of `t` in its push. */
  const CRASHED := STARTED.(status := FixApproved, token := Some("t"), proposals := One(Some(FIRST)),
    sentPushes := {FIRST}, used := {"t"})

  /** After `t` opened a PR, never heard of it and released its claim, and the PR was closed. */
  const CLOSED := STARTED.(proposals := One(Some(FIRST)), sentPushes := {FIRST}, used := {"t"}, released := {"t"},
    branch := Some(FIRST), pushes := 1, prs := [Pr(FIRST, false)])

  lemma Starts()
    ensures Initial(FRESH) && Run(FRESH, [ProposalAdded("p")]) == STARTED
  {
    RunSnoc(FRESH, [], ProposalAdded("p"));
    assert [] + [ProposalAdded("p")] == [ProposalAdded("p")];
    assert ["p"] + FRESH.proposals.order == ["p"];
  }

  /** A call that finds nothing on the remote records its intent. */
  function Pushes(s: State, t: Token, salt: int): State
    requires s.proposals.order == ["p"] && "p" in s.proposals.rows
  {
    var sha := Sha("p", salt);
    var b := Begun(s, t, None);
    Put(b, t, b.calls[t].(pc := Pushing(sha))).(sentPushes := s.sentPushes + {sha},
      proposals := s.proposals.(rows := s.proposals.rows["p" := s.proposals.rows["p"].(pushed := Some(sha))]))
  }

  lemma Intends(s: State, t: Token, salt: int) returns (events: seq<Event>)
    requires ProposalsOk(s) && Claimable(s, None) && t !in s.used
    requires s.proposals.order == ["p"] && s.branch.None? && s.prs == []
    ensures Run(s, events) == Pushes(s, t, salt)
  {
    var more := [On(t, FindAnswered(true, true)), On(t, TipRead(true)), On(t, CommitBuilt(salt))];
    events := Beginning(t, None) + more;
    CallBegins(s, t, None);
    RunConcat(s, Beginning(t, None), more);
    Three(Begun(s, t, None), more[0], more[1], more[2]);
    BegunIntends(s, t, salt);
  }

  lemma BegunIntends(s: State, t: Token, salt: int)
    requires s.proposals.order == ["p"] && "p" in s.proposals.rows && s.branch.None? && s.prs == [] && s.starting.None?
    ensures var f := Next(Begun(s, t, None), On(t, FindAnswered(true, true)));
            Next(Next(f, On(t, TipRead(true))), On(t, CommitBuilt(salt))) == Pushes(s, t, salt)
  {
    var f := Next(Begun(s, t, None), On(t, FindAnswered(true, true)));
    assert f.calls[t].pc.NoPr? && !f.calls[t].missed;
    var g := Next(f, On(t, TipRead(true)));
    assert g.calls[t].pc.Building?;
  }

  lemma CrashesInThePush()
    ensures Next(Pushes(STARTED, "t", 0), Crash) == CRASHED
  {
    var s := Pushes(STARTED, "t", 0);
    assert s.calls == map["t" := s.calls["t"]];
  }

  lemma OldPushLands() returns (r: State)
    ensures r == Next(Next(Pushes(CRASHED, "u", 1), LatePush(FIRST)), On("u", PushEnded(true, true)))
    ensures Stranded(r)
  {
    var s := Next(Pushes(CRASHED, "u", 1), LatePush(FIRST));
    r := Next(s, On("u", PushEnded(true, true)));
    LandsUnderTheRetry(s);
    RefusedAndStranded(s);
  }

  lemma LandsUnderTheRetry(s: State)
    requires s == Next(Pushes(CRASHED, "u", 1), LatePush(FIRST))
    ensures s.branch == Some(FIRST) && s.starting.None? && s.calls.Keys == {"u"}
    ensures s.calls["u"].pc == Pushing(SECOND)
    ensures "p" in s.proposals.rows && s.proposals.rows["p"].pushed == Some(SECOND)
  {
  }

  lemma RefusedAndStranded(s: State)
    requires s.branch == Some(FIRST) && s.starting.None? && s.calls.Keys == {"u"}
    requires s.calls["u"].pc == Pushing(SECOND)
    requires "p" in s.proposals.rows && s.proposals.rows["p"].pushed == Some(SECOND)
    ensures Stranded(Next(s, On("u", PushEnded(true, true))))
  {
  }

  lemma Claims(s: State)
    requires s == STARTED || s == CRASHED || s == CLOSED
    ensures ProposalsOk(s) && Claimable(s, None)
  {
  }

  /** A branch can be stranded: a process dies in its push, a retry records a
      new intent for the same proposal, and then the old push lands. */
  lemma LatePushStrands() returns (events: seq<Event>)
    ensures Initial(FRESH) && Stranded(Run(FRESH, events))
  {
    Starts();
    Claims(STARTED);
    Claims(CRASHED);
    var a := Intends(STARTED, "t", 0);
    RunConcat(FRESH, [ProposalAdded("p")], a);
    RunSnoc(FRESH, [ProposalAdded("p")] + a, Crash);
    CrashesInThePush();
    var before := [ProposalAdded("p")] + a + [Crash];
    var b := Intends(CRASHED, "u", 1);
    RunConcat(FRESH, before, b);
    RunSnoc(FRESH, before + b, LatePush(FIRST));
    RunSnoc(FRESH, before + b + [LatePush(FIRST)], On("u", PushEnded(true, true)));
    var r := OldPushLands();
    events := before + b + [LatePush(FIRST)] + [On("u", PushEnded(true, true))];
  }

  /** From its push on: the PR is created but its answer is lost, the claim is
      released, the call ends, and the PR is closed. */
  lemma OpensUnheard() returns (events: seq<Event>)
    ensures Run(Pushes(STARTED, "t", 0), events) == CLOSED
  {
    var s := Pushes(STARTED, "t", 0);
    var first := [On("t", PushEnded(true, true)), On("t", CreateEnded(true, false)), On("t", Release(true))];
    var last := [On("t", Leave), PrClosed(0)];
    events := first + last;
    RunConcat(s, first, last);
    Three(s, first[0], first[1], first[2]);
    var q := OpensAndReleases();
    RunSnoc(q, [], On("t", Leave));
    RunSnoc(q, [On("t", Leave)], PrClosed(0));
    assert [] + [On("t", Leave)] == [On("t", Leave)] && [On("t", Leave)] + [PrClosed(0)] == last;
    LeavesAndCloses(q);
  }

  /** The call of `t` with its PR open and unheard of, about to release its claim. */
  function Unheard(c: Call): State {
    CLOSED.(status := FixApproved, token := Some("t"), released := {}, prs := [Pr(FIRST, true)], active := Some("t"),
            calls := map["t" := c])
  }

  lemma OpensTheBranch() returns (c: Call)
    ensures c.pc == Creating("p", FIRST) && !c.finalized && c.requested.None?
    ensures Next(Pushes(STARTED, "t", 0), On("t", PushEnded(true, true))) == Unheard(c).(prs := [])
  {
    var a := Next(Pushes(STARTED, "t", 0), On("t", PushEnded(true, true)));
    c := a.calls["t"];
    assert a.branch == Some(FIRST) && a.calls == map["t" := c];
  }

  lemma OpensAndLoses() returns (c: Call)
    ensures var s := Pushes(STARTED, "t", 0);
            Unheard(c) == Next(Next(s, On("t", PushEnded(true, true))), On("t", CreateEnded(true, false)))
    ensures c.pc.Ending? && !c.finalized
  {
    var a := OpensTheBranch();
    c := a.(pc := Ending);
    assert map["t" := a]["t" := c] == map["t" := c];
    assert [] + [Pr(FIRST, true)] == [Pr(FIRST, true)];
  }

  lemma OpensAndReleases() returns (q: State)
    ensures var s := Pushes(STARTED, "t", 0);
            q == Next(Next(Next(s, On("t", PushEnded(true, true))), On("t", CreateEnded(true, false))),
                      On("t", Release(true)))
    ensures q.calls.Keys == {"t"} && q.calls["t"].pc.Leaving?
    ensures q == CLOSED.(prs := [Pr(FIRST, true)], active := Some("t"), calls := q.calls)
  {
    var c := OpensAndLoses();
    q := Next(Unheard(c), On("t", Release(true)));
  }

  lemma LeavesAndCloses(q: State)
    requires q.calls.Keys == {"t"} && q.calls["t"].pc.Leaving?
    requires q == CLOSED.(prs := [Pr(FIRST, true)], active := Some("t"), calls := q.calls)
    ensures Next(Next(q, On("t", Leave)), PrClosed(0)) == CLOSED
  {
    assert q.calls - {"t"} == map[];
  }

  lemma MissesAndOpens() returns (r: State)
    ensures r == Next(Next(Next(Begun(CLOSED, "u", None), On("u", FindAnswered(true, false))), On("u", TipRead(true))),
                      On("u", CreateEnded(true, true)))
    ensures |r.prs| == 2 && r.status.FixCommitted?
  {
    var f := Next(Begun(CLOSED, "u", None), On("u", FindAnswered(true, false)));
    assert f.calls["u"].pc.NoPr? && f.calls["u"].missed;
    assert Pusher(["p"], CLOSED.proposals.rows, FIRST) == Some("p");
    var g := Next(f, On("u", TipRead(true)));
    assert g.calls["u"].pc == Creating("p", FIRST);
    assert !Open(g.prs);
    r := Next(g, On("u", CreateEnded(true, true)));
  }

  /** A second PR can be opened: the first one's answer was lost, it was
      closed, and the retry's listing missed it. */
  lemma TwoPrs() returns (events: seq<Event>)
    ensures Initial(FRESH) && |Run(FRESH, events).prs| == 2
  {
    Starts();
    Claims(STARTED);
    Claims(CLOSED);
    var a := Intends(STARTED, "t", 0);
    var b := OpensUnheard();
    RunConcat(FRESH, [ProposalAdded("p")], a);
    RunConcat(FRESH, [ProposalAdded("p")] + a, b);
    var before := [ProposalAdded("p")] + a + b;
    CallBegins(CLOSED, "u", None);
    RunConcat(FRESH, before, Beginning("u", None));
    var last := [On("u", FindAnswered(true, false)), On("u", TipRead(true)), On("u", CreateEnded(true, true))];
    RunConcat(FRESH, before + Beginning("u", None), last);
    Three(Begun(CLOSED, "u", None), last[0], last[1], last[2]);
    var r := MissesAndOpens();
    events := before + Beginning("u", None) + last;
  }

  /** The DELETE case happens: this run takes a live call's claim away. */
  lemma DeleteCanTakeALiveClaim() returns (events: seq<Event>)
    ensures Initial(FRESH)
    ensures var r := Run(FRESH, events);
            "t" in r.calls && r.active == Some("t") && r.status.Rejected? && !Holds(r, "t")
  {
    Starts();
    var race := [Check("t", None, true), ClaimCas, DeleteRead(0)];
    var more := [DeleteCheck(0), Register, DeleteWrite(0)];
    RunConcat(FRESH, [ProposalAdded("p")], race);
    RunConcat(FRESH, [ProposalAdded("p")] + race, more);
    Three(STARTED, race[0], race[1], race[2]);
    var s := ReadInTheWindow();
    Three(s, more[0], more[1], more[2]);
    WritesFromTheWindow(s);
    events := [ProposalAdded("p")] + race + more;
  }

  lemma WritesFromTheWindow(s: State)
    requires var b := Start("t", None, "p", FixProposed, None, true);
             s == STARTED.(status := FixApproved, token := Some("t"), starting := Some(b), used := {"t"},
                           calls := map["t" := NewCall(b)],
                           deletes := map[0 := Delete(FixApproved, Some("t"), false, false)])
    ensures var r := Next(Next(Next(s, DeleteCheck(0)), Register), DeleteWrite(0));
            "t" in r.calls && r.active == Some("t") && r.status.Rejected?
  {
    assert Next(s, DeleteCheck(0)).deletes[0] == Delete(FixApproved, Some("t"), true, true);
  }

  lemma ReadInTheWindow() returns (s: State)
    ensures s == Next(Next(Next(STARTED, Check("t", None, true)), ClaimCas), DeleteRead(0))
    ensures var b := Start("t", None, "p", FixProposed, None, true);
            s == STARTED.(status := FixApproved, token := Some("t"), starting := Some(b), used := {"t"},
                          calls := map["t" := NewCall(b)],
                          deletes := map[0 := Delete(FixApproved, Some("t"), false, false)])
  {
    assert Recorded(STARTED.proposals).None?;
    var a := Next(STARTED, Check("t", None, true));
    assert a.starting == Some(Start("t", None, "p", FixProposed, None, false));
    s := Next(Next(a, ClaimCas), DeleteRead(0));
  }
}
