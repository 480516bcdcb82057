/** What an open-pr call does when it may: whom it answers, when its claim is
    won, what an answered call leaves on the remote and in the rows, and what a
    call that fails leaves. */
module OpenPrProgress {
  import opened Common
  import opened Workflow
  import opened OpenPr
  import opened OpenPrSafety
  import opened OpenPrResults
  import opened OpenPrRetries

  // ---------------------------------------------------------------- the checks

  /** A PR is recorded on this proposal. */
  predicate HasPrRow(s: State, p: Pid) {
    p in s.proposals.rows && s.proposals.rows[p].pr.Some?
  }

  /** Before its claim a call is answered if and only if a PR is recorded, on the
      requested proposal if one is named; and it goes on to claim, for that
      proposal or the newest, if and only if there is no PR, a proposal to open,
      no running call, a claimable status and the configuration. Otherwise it is
      refused; and in no case does it write to a row. */
  lemma CheckDecides(s: State, token: Token, requested: Option<Pid>, configured: bool)
    requires Reachable(s) && s.starting.None? && token !in s.used
    ensures var n := Next(s, Check(token, requested, configured));
            var known := requested.Some? ==> requested.value in s.proposals.rows;
            var answered := HasRecord(s) && known && (requested.Some? ==> HasPrRow(s, requested.value));
            var goesOn := && !HasRecord(s) && known && s.proposals.order != [] && s.active.None? && configured
                          && (s.status.FixProposed? || s.status.FixApproved?);
            && n == s.(replies := n.replies, starting := n.starting, used := n.used)
            && (|n.replies| == |s.replies| + 1 <==> answered) && (answered || n.replies == s.replies)
            && (n.starting.Some? <==> goesOn)
            && (goesOn ==>
                  && n.starting == Some(Start(token, requested, Chosen(s, requested), s.status, s.token, false))
                  && n.used == s.used + {token})
            && (!goesOn ==> n.used == s.used)
  {
    ReachableKeeps(s);
    RecordedIsFound(s);
  }

  // ----------------------------------------------------------------- the claim

  /** Another route's or stage's event: it may come between the checks and the claim. */
  predicate ByOthers(e: Event) {
    e.DeleteRead? || e.DeleteCheck? || e.DeleteWrite? || e.PatchRead? || e.PatchWrite? || e.StatusWritten?
  }

  lemma {:induction false} OthersLeaveTheStart(s: State, others: seq<Event>)
    requires forall e <- others :: ByOthers(e)
    ensures var r := Run(s, others);
            r == s.(status := r.status, deleted := r.deleted, deletes := r.deletes, patches := r.patches)
    decreases |others|
  {
    if others != [] {
      OthersLeaveTheStart(s, others[..|others| - 1]);
      assert others[|others| - 1] in others;
      RequestsWriteTheReport(Run(s, others[..|others| - 1]), others[|others| - 1]);
    }
  }

  /** A call that passed its checks wins its claim if and only if, whatever other
      routes and stages did since, the status is still as it read it and, for an
      adoption, so is the token, whoever may have written one. The winner then
      holds the report; the loser has changed nothing. */
  lemma ClaimIsWonIff(s: State, token: Token, requested: Option<Pid>, others: seq<Event>, written: Option<Token>)
    requires ProposalsOk(s) && Claimable(s, requested) && token !in s.used && forall e <- others :: ByOthers(e)
    ensures var between := Run(Next(s, Check(token, requested, true)), others).(token := written);
            var t := Next(between, ClaimCas);
            && (t.starting.Some? <==> between.status == s.status && (s.status.FixApproved? ==> written == s.token))
            && (if t.starting.Some?
                then Holds(t, token) && token in t.calls && t.calls[token].pc.Waiting?
                     && t.calls[token].proposal == Chosen(s, requested) && t.calls[token].requested == requested
                else t == between.(starting := None))
            && t.proposals == s.proposals && t.prs == s.prs && t.branch == s.branch
  {
    RecordedIsFound(s);
    var start := Start(token, requested, Chosen(s, requested), s.status, s.token, false);
    var s1 := s.(starting := Some(start), used := s.used + {token});
    assert CheckOpen(s, token, requested, true) == s1;
    OthersLeaveTheStart(s1, others);
  }

  // --------------------------------------------------------- an answered call

  /** The requests of a call for a report with nothing on the remote, all answered. */
  function Opening(t: Token, salt: int): seq<Event> {
    [On(t, FindAnswered(true, true)), On(t, TipRead(true)), On(t, CommitBuilt(salt)), On(t, PushEnded(true, true)),
     On(t, CreateEnded(true, true))]
  }

  lemma Five(s: State, a: Event, b: Event, c: Event, d: Event, e: Event)
    ensures Run(s, [a, b, c, d, e]) == Next(Next(Next(Next(Next(s, a), b), c), d), e)
  {
    Four(s, a, b, c, d);
    RunSnoc(s, [a, b, c, d], e);
    assert [a, b, c, d] + [e] == [a, b, c, d, e];
  }

  /** The pushed branch, about to be opened. */
  function Pushed(s: State, t: Token, requested: Option<Pid>, salt: int): State
    requires s.proposals.order != [] && Chosen(s, requested) in s.proposals.rows
  {
    var p := Chosen(s, requested); var sha := Sha(p, salt); var b := Begun(s, t, requested);
    Put(b, t, b.calls[t].(pc := Creating(p, sha))).(
      sentPushes := s.sentPushes + {sha}, branch := Some(sha), pushes := s.pushes + 1,
      proposals := s.proposals.(rows := s.proposals.rows[p := s.proposals.rows[p].(pushed := Some(sha))]))
  }

  lemma BeginsToBuild(s: State, t: Token, requested: Option<Pid>)
    requires Claimable(s, requested) && s.branch.None? && s.prs == []
    ensures var b := Begun(s, t, requested);
            Next(Next(b, On(t, FindAnswered(true, true))), On(t, TipRead(true))) ==
            Put(b, t, b.calls[t].(pc := Building))
  {
    BegunFindsNoPr(s, t, requested);
  }

  /** The built commit, recorded as its proposal's intent. */
  function Built(s: State, t: Token, requested: Option<Pid>, salt: int): State
    requires s.proposals.order != [] && Chosen(s, requested) in s.proposals.rows
  {
    var p := Chosen(s, requested); var sha := Sha(p, salt); var b := Begun(s, t, requested);
    Put(b, t, b.calls[t].(pc := Pushing(sha))).(
      sentPushes := s.sentPushes + {sha},
      proposals := s.proposals.(rows := s.proposals.rows[p := s.proposals.rows[p].(pushed := Some(sha))]))
  }

  lemma Builds(s: State, t: Token, requested: Option<Pid>, salt: int)
    requires Claimable(s, requested) && s.branch.None? && Chosen(s, requested) in s.proposals.rows
    ensures var b := Begun(s, t, requested);
            Next(Put(b, t, b.calls[t].(pc := Building)), On(t, CommitBuilt(salt))) == Built(s, t, requested, salt)
  {
    var b := Begun(s, t, requested);
    CommitIsBuilt(Put(b, t, b.calls[t].(pc := Building)), t, salt);
  }

  lemma Pushes(s: State, t: Token, requested: Option<Pid>, salt: int)
    requires Claimable(s, requested) && s.branch.None? && Chosen(s, requested) in s.proposals.rows
    ensures Next(Built(s, t, requested, salt), On(t, PushEnded(true, true))) == Pushed(s, t, requested, salt)
  {
    PushIsTaken(Built(s, t, requested, salt), t);
  }

  lemma CommitIsBuilt(s: State, t: Token, salt: int)
    requires t in s.calls && s.starting.None? && s.calls[t].pc.Building? && s.calls[t].proposal in s.proposals.rows
    ensures var p := s.calls[t].proposal; var sha := Sha(p, salt);
            Next(s, On(t, CommitBuilt(salt))) ==
            s.(calls := s.calls[t := s.calls[t].(pc := Pushing(sha))], sentPushes := s.sentPushes + {sha},
               proposals := s.proposals.(rows := s.proposals.rows[p := s.proposals.rows[p].(pushed := Some(sha))]))
  {
  }

  lemma PushIsTaken(s: State, t: Token)
    requires t in s.calls && s.starting.None? && s.calls[t].pc.Pushing? && s.branch.None?
    ensures var c := s.calls[t];
            Next(s, On(t, PushEnded(true, true))) ==
            s.(calls := s.calls[t := c.(pc := Creating(c.proposal, c.pc.sha))], branch := Some(c.pc.sha),
               pushes := s.pushes + 1)
  {
  }

  lemma OpensAndRecords(s: State, t: Token, requested: Option<Pid>, salt: int)
    requires Claimable(s, requested) && s.branch.None? && s.prs == [] && Chosen(s, requested) in s.proposals.rows
    ensures var p := Chosen(s, requested); var sha := Sha(p, salt);
            var r := Next(Pushed(s, t, requested, salt), On(t, CreateEnded(true, true)));
            && r.branch == Some(sha) && r.prs == [Pr(sha, true)] && r.status.FixCommitted? && r.token.None?
            && r.proposals == s.proposals.(rows := s.proposals.rows[p := Proposal(Some(sha), Some(0))])
            && t in r.calls && r.calls[t].finalized
            && r.replies == s.replies + [Reply(requested, p, 0, true)]
  {
    var q := Pushed(s, t, requested, salt);
    assert !Open(q.prs) && [] + [Pr(q.branch.value, true)] == [Pr(q.branch.value, true)];
    assert Holds(q, t);
  }

  lemma NoBranchNoPr(s: State)
    requires s.branch.None? && forall pr <- s.prs :: s.branch == Some(pr.head)
    ensures s.prs == []
  {
    FirstIsIn(s.prs);
  }

  lemma FirstIsIn<T>(xs: seq<T>)
    ensures xs == [] || xs[0] in xs
  {
  }

  /** For a claimable report with nothing on the remote, a call whose requests
      are answered pushes one commit of the requested proposal, or the newest,
      opens its PR, records both on that proposal and nothing else, and answers
      201 with it. */
  lemma AnsweredCallOpens(s: State, t: Token, requested: Option<Pid>, salt: int)
    requires Reachable(s) && Claimable(s, requested) && t !in s.used && s.branch.None?
    ensures Chosen(s, requested) in s.proposals.rows
    ensures var p := Chosen(s, requested); var sha := Sha(p, salt);
            var r := Run(s, Beginning(t, requested) + Opening(t, salt));
            && r.branch == Some(sha) && r.prs == [Pr(sha, true)] && r.status.FixCommitted? && r.token.None?
            && r.proposals == s.proposals.(rows := s.proposals.rows[p := Proposal(Some(sha), Some(0))])
            && t in r.calls && r.calls[t].finalized
            && r.replies == s.replies + [Reply(requested, p, 0, true)]
  {
    ReachableKeeps(s);
    NoBranchNoPr(s);
    assert Chosen(s, requested) in s.proposals.rows by {
      assert s.proposals.order[0] in s.proposals.order;
    }
    CallBegins(s, t, requested);
    RunConcat(s, Beginning(t, requested), Opening(t, salt));
    var o := Opening(t, salt);
    Five(Begun(s, t, requested), o[0], o[1], o[2], o[3], o[4]);
    BeginsToBuild(s, t, requested);
    Builds(s, t, requested, salt);
    Pushes(s, t, requested, salt);
    OpensAndRecords(s, t, requested, salt);
  }

  // -------------------------------------------------------- a PR that is there

  /** A creation GitHub refuses because a PR is open makes the call look again,
      and record the PR it finds on the author of its head, not as created. */
  lemma OpenPrIsRecorded(s: State, t: Token, commits: seq<Commit>)
    requires Reachable(s) && t in s.calls && s.starting.None? && s.calls[t].pc.Creating? && Open(s.prs) && Holds(s, t)
    requires s.prs != [] && Listing(s.prs[|s.prs| - 1].head, commits)
    ensures s.branch.Some? && s.branch.value.proposal in s.proposals.rows
    ensures var found := Next(Next(s, On(t, CreateEnded(true, true))), On(t, FoundAgain(true, true)));
            var r := Next(found, On(t, CommitsRead(true, commits)));
            var author := s.branch.value.proposal; var n := |s.prs| - 1; var requested := s.calls[t].requested;
            && r.prs == s.prs && r.branch == s.branch && r.status.FixCommitted? && r.token.None?
            && t in r.calls && r.calls[t].finalized
            && r.proposals == s.proposals.(rows := s.proposals.rows[author := s.proposals.rows[author].(pr := Some(n))])
            && r.replies == s.replies + (if requested.None? || requested.value == author
                                         then [Reply(requested, author, n, false)] else [])
  {
    ReachableKeeps(s);
    LooksAgain(s, t);
    var c := s.calls[t].(pc := Found(|s.prs| - 1));
    assert CallOk(s, s.calls[t]) && s.prs[|s.prs| - 1] in s.prs;
    OwnerIsTheAuthor(c.snap, s.prs[|s.prs| - 1].head, commits);
    RecordsTheFound(Put(s, t, c), t, commits, s.branch.value.proposal);
  }

  lemma LooksAgain(s: State, t: Token)
    requires t in s.calls && s.starting.None? && s.calls[t].pc.Creating? && Open(s.prs) && s.branch.Some?
    ensures s.prs != []
    ensures Next(Next(s, On(t, CreateEnded(true, true))), On(t, FoundAgain(true, true))) ==
            Put(s, t, s.calls[t].(pc := Found(|s.prs| - 1)))
  {
    assert s.prs != [];
    var a := Next(s, On(t, CreateEnded(true, true)));
    assert a == At(s, t, FindingAgain);
  }

  lemma RecordsTheFound(s: State, t: Token, commits: seq<Commit>, author: Pid)
    requires t in s.calls && s.starting.None? && s.prs != [] && s.calls[t].pc == Found(|s.prs| - 1) && Holds(s, t)
    requires Listing(s.prs[|s.prs| - 1].head, commits) && author in s.proposals.rows
    requires ResolveOwner(s.calls[t].snap, s.prs[|s.prs| - 1].head, commits) == Some(author)
    ensures var r := Next(s, On(t, CommitsRead(true, commits))); var n := |s.prs| - 1;
            var requested := s.calls[t].requested;
            && r.prs == s.prs && r.branch == s.branch && r.status.FixCommitted? && r.token.None?
            && t in r.calls && r.calls[t].finalized
            && r.proposals == s.proposals.(rows := s.proposals.rows[author := s.proposals.rows[author].(pr := Some(n))])
            && r.replies == s.replies + (if requested.None? || requested.value == author
                                         then [Reply(requested, author, n, false)] else [])
  {
    assert Finalize(s, t, author, |s.prs| - 1, None, false) == Next(s, On(t, CommitsRead(true, commits)));
    assert s.replies + [] == s.replies;
  }

  /** A call records the PR it has opened if and only if it still holds its
      claim; a call that lost it leaves the PR and no record of it. */
  lemma OpenedIsRecordedIff(s: State, t: Token)
    requires Reachable(s) && t in s.calls && s.starting.None? && s.calls[t].pc.Creating? && !Open(s.prs)
    ensures s.branch.Some?
    ensures var r := Next(s, On(t, CreateEnded(true, true)));
            && r.prs == s.prs + [Pr(s.branch.value, true)] && t in r.calls
            && (r.calls[t].finalized <==> Holds(s, t))
            && (!Holds(s, t) ==> r.proposals == s.proposals && r.status == s.status && r.token == s.token
                                 && r.replies == s.replies && r.calls[t].pc.Ending?)
  {
    ReachableKeeps(s);
    assert CallOk(s, s.calls[t]);
    OpensIt(s, t);
  }

  lemma OpensIt(s: State, t: Token)
    requires t in s.calls && s.starting.None? && s.calls[t].pc.Creating? && !Open(s.prs) && s.branch.Some?
    requires s.calls[t].pc.owner in s.proposals.rows && !s.calls[t].finalized
    ensures var r := Next(s, On(t, CreateEnded(true, true)));
            && r.prs == s.prs + [Pr(s.branch.value, true)] && t in r.calls
            && (r.calls[t].finalized <==> Holds(s, t))
            && (!Holds(s, t) ==> r.proposals == s.proposals && r.status == s.status && r.token == s.token
                                 && r.replies == s.replies && r.calls[t].pc.Ending?)
  {
    var pc := s.calls[t].pc;
    var a := AddPr(At(s, t, Ending));
    assert Next(s, On(t, CreateEnded(true, true))) == Finalize(a, t, pc.owner, |s.prs|, Some(pc.sha), true);
    FinalizeLeavesTheRemote(a, t, pc.owner, |s.prs|, Some(pc.sha), true);
  }

  // --------------------------------------------------------- a call that fails

  /** An answer that says no, or none. */
  predicate Fails(pc: Pc, step: CallStep) {
    || (step.FindAnswered? && pc.Finding? && !step.ok)
    || (step.TipRead? && pc.NoPr? && !step.ok)
    || (step.PushEnded? && pc.Pushing? && !step.arrived)
    || (step.CreateEnded? && pc.Creating? && !step.arrived)
    || (step.FoundAgain? && pc.FindingAgain? && !(step.ok && step.seen))
    || (step.CommitsRead? && pc.Found? && !step.ok)
    || (step.Abort? && !pc.Leaving?)
  }

  /** It ends the call with nothing written anywhere. */
  lemma FailureEndsTheCall(s: State, t: Token, step: CallStep)
    requires t in s.calls && s.starting.None? && Fails(s.calls[t].pc, step)
    ensures var r := Next(s, On(t, step));
            && r == s.(calls := s.calls[t := s.calls[t].(pc := Ending)], pendingCreates := r.pendingCreates)
            && r.pendingCreates == s.pendingCreates + if s.calls[t].pc.Creating? then 1 else 0
  {
  }

  /** From any point, a call that fails, whichever request fails it, and is
      released leaves no call, and the report as it was before its claim, if it
      still held it: proposed, without a token, and open to the next call. What
      it had put on the remote stays, and a creation given up may still land. */
  lemma FailedCallReleases(s: State, t: Token, step: CallStep)
    requires Reachable(s) && t in s.calls && s.starting.None? && !s.calls[t].finalized && Fails(s.calls[t].pc, step)
    ensures var r := Next(Next(Next(s, On(t, step)), On(t, Release(true))), On(t, Leave));
            && r.calls == map[] && r.active.None? && r.starting.None?
            && r.proposals == s.proposals && r.prs == s.prs && r.branch == s.branch && r.replies == s.replies
            && r.pendingCreates == s.pendingCreates + (if s.calls[t].pc.Creating? then 1 else 0)
            && (if Holds(s, t) then r.status.FixProposed? && r.token.None?
                else r.status == s.status && r.token == s.token)
  {
    ReachableKeeps(s);
    SoleCallReleases(s, t, step);
  }

  lemma SoleCallReleases(s: State, t: Token, step: CallStep)
    requires Sole(s.calls, t) && s.active == Some(t) && s.starting.None? && !s.calls[t].finalized
    requires Fails(s.calls[t].pc, step)
    ensures var r := Next(Next(Next(s, On(t, step)), On(t, Release(true))), On(t, Leave));
            && r.calls == map[] && r.active.None? && r.starting.None?
            && r.proposals == s.proposals && r.prs == s.prs && r.branch == s.branch && r.replies == s.replies
            && r.pendingCreates == s.pendingCreates + (if s.calls[t].pc.Creating? then 1 else 0)
            && (if Holds(s, t) then r.status.FixProposed? && r.token.None?
                else r.status == s.status && r.token == s.token)
  {
    FailureEndsTheCall(s, t, step);
    ReleasesAndLeaves(Next(s, On(t, step)), t);
  }

  lemma ReleasesAndLeaves(s: State, t: Token)
    requires Sole(s.calls, t) && s.calls[t].pc.Ending? && !s.calls[t].finalized
    requires s.starting.None? && s.active == Some(t)
    ensures var r := Next(Next(s, On(t, Release(true))), On(t, Leave));
            && r.calls == map[] && r.active.None? && r.starting.None?
            && r.proposals == s.proposals && r.prs == s.prs && r.branch == s.branch && r.replies == s.replies
            && r.pendingCreates == s.pendingCreates
            && (if Holds(s, t) then r.status.FixProposed? && r.token.None?
                else r.status == s.status && r.token == s.token)
  {
    Releases(s, t);
    Leaves(Next(s, On(t, Release(true))), t);
  }

  lemma Releases(s: State, t: Token)
    requires Sole(s.calls, t) && s.calls[t].pc.Ending? && !s.calls[t].finalized && s.starting.None?
    ensures Next(s, On(t, Release(true))) == ReleaseClaim(At(s, t, Leaving), t)
    ensures var r := ReleaseClaim(At(s, t, Leaving), t);
            && Sole(r.calls, t) && r.calls[t].pc.Leaving?
            && r == s.(calls := r.calls, status := r.status, token := r.token, released := r.released)
            && (if Holds(s, t) then r.status.FixProposed? && r.token.None?
                else r.status == s.status && r.token == s.token)
  {
  }

  lemma Leaves(s: State, t: Token)
    requires Sole(s.calls, t) && s.calls[t].pc.Leaving? && s.starting.None? && s.active == Some(t)
    ensures Next(s, On(t, Leave)) == s.(calls := map[], active := None)
  {
    assert s.calls - {t} == map[];
  }

  // ------------------------------------------------------- DELETE and PATCH

  /** No event of the DELETE request `d`, and no crash. */
  predicate ElseThan(e: Event, d: int) {
    !e.Crash? && !((e.DeleteRead? || e.DeleteCheck? || e.DeleteWrite?) && e.request == d)
  }

  predicate SameRequests(s: State, r: State) {
    r.deletes == s.deletes && r.patches == s.patches
  }

  lemma FinalizeLeavesTheRequests(s: State, t: Token, owner: Pid, pr: nat, pushed: Option<Sha>, created: bool)
    requires t in s.calls
    ensures SameRequests(s, Finalize(s, t, owner, pr, pushed, created))
  {
  }

  lemma RecordingLeavesTheRequests(s: State, t: Token, step: CallStep)
    requires t in s.calls && (step.CreateEnded? || step.CommitsRead?)
    ensures SameRequests(s, RunCall(s, t, step))
  {
    var c := s.calls[t];
    if step.CommitsRead? && c.pc.Found? && ReadsCommits(s, c.pc.pr, step) {
      var owner := ResolveOwner(c.snap, s.prs[c.pc.pr].head, step.commits);
      if owner.Some? || c.requested.Some? {
        FinalizeLeavesTheRequests(s, t, if owner.Some? then owner.value else c.requested.value, c.pc.pr, None, false);
      }
    } else if step.CreateEnded? && c.pc.Creating? && step.arrived && s.branch.Some? && !Open(s.prs) {
      FinalizeLeavesTheRequests(AddPr(At(s, t, Ending)), t, c.pc.owner, |s.prs|, Some(c.pc.sha), true);
    }
  }

  lemma TipLeavesTheRequests(s: State, t: Token, ok: bool)
    requires t in s.calls
    ensures SameRequests(s, RunCall(s, t, TipRead(ok)))
  {
    var r := RunCall(s, t, TipRead(ok));
    assert r == s || r == At(s, t, r.calls[t].pc);
  }

  lemma EndLeavesTheRequests(s: State, t: Token, step: CallStep)
    requires t in s.calls && (step.Abort? || step.Release? || step.Leave?)
    ensures SameRequests(s, RunCall(s, t, step))
  {
  }

  lemma CallsLeaveTheRequests(s: State, t: Token, step: CallStep)
    requires t in s.calls
    ensures SameRequests(s, RunCall(s, t, step))
  {
    if step.CreateEnded? || step.CommitsRead? {
      RecordingLeavesTheRequests(s, t, step);
    } else if step.TipRead? {
      TipLeavesTheRequests(s, t, step.ok);
    } else if step.Abort? || step.Release? || step.Leave? {
      EndLeavesTheRequests(s, t, step);
    }
  }

  lemma {:induction false} DeleteStays(s: State, d: int, others: seq<Event>)
    requires d in s.deletes && forall e <- others :: ElseThan(e, d)
    ensures d in Run(s, others).deletes && Run(s, others).deletes[d] == s.deletes[d]
    decreases |others|
  {
    if others != [] {
      var r := Run(s, others[..|others| - 1]); var e := others[|others| - 1];
      DeleteStays(s, d, others[..|others| - 1]);
      assert e in others;
      if e.On? {
        if e.call in r.calls { CallsLeaveTheRequests(r, e.call, e.step); }
      } else {
        OtherDeleteStays(r, d, e);
      }
    }
  }

  lemma OtherDeleteStays(s: State, d: int, e: Event)
    requires d in s.deletes && ElseThan(e, d) && !e.On?
    ensures d in Next(s, e).deletes && Next(s, e).deletes[d] == s.deletes[d]
  {
    if !e.DeleteRead? && !e.DeleteCheck? && !e.DeleteWrite? {
      OnlyDeletesTouchDeletes(s, e);
    }
  }

  lemma OnlyDeletesTouchDeletes(s: State, e: Event)
    requires !e.DeleteRead? && !e.DeleteCheck? && !e.DeleteWrite? && !e.Crash? && !e.On?
    ensures Next(s, e).deletes == s.deletes
  {
  }

  lemma {:induction false} NoDeleteStaysNone(s: State, d: int, others: seq<Event>)
    requires d !in s.deletes && forall e <- others :: ElseThan(e, d)
    ensures d !in Run(s, others).deletes
    decreases |others|
  {
    if others != [] {
      var r := Run(s, others[..|others| - 1]); var e := others[|others| - 1];
      NoDeleteStaysNone(s, d, others[..|others| - 1]);
      assert e in others;
      if e.On? {
        if e.call in r.calls { CallsLeaveTheRequests(r, e.call, e.step); }
      } else if !e.DeleteRead? && !e.DeleteCheck? && !e.DeleteWrite? {
        OnlyDeletesTouchDeletes(r, e);
      }
    }
  }

  /** A DELETE deletes its report if and only if no call is registered at its
      check and, whatever happens before its write, status and token are then as
      it read them and nobody else has deleted it. Otherwise it writes nothing. */
  lemma DeleteDeletesIff(s: State, d: int, others: seq<Event>)
    requires d !in s.deletes && !s.deleted && forall e <- others :: ElseThan(e, d)
    ensures var u := Run(Next(Next(s, DeleteRead(d)), DeleteCheck(d)), others); var t := Next(u, DeleteWrite(d));
            if s.active.None? && u.status == s.status && u.token == s.token && !u.deleted
            then t.status.Rejected? && t.deleted && t == u.(status := t.status, deleted := true, deletes := t.deletes)
            else t == u.(deletes := t.deletes)
  {
    var c := Next(Next(s, DeleteRead(d)), DeleteCheck(d));
    if s.active.Some? {
      NoDeleteStaysNone(c, d, others);
    } else {
      assert c.deletes[d].passed && c.deletes[d].status == s.status && c.deletes[d].token == s.token;
      DeleteStays(c, d, others);
      WritesWhatItChecked(Run(c, others), d, s.status, s.token);
    }
  }

  lemma WritesWhatItChecked(s: State, d: int, status: Status, token: Option<Token>)
    requires d in s.deletes && s.deletes[d].passed && s.deletes[d].status == status && s.deletes[d].token == token
    ensures var t := Next(s, DeleteWrite(d));
            if s.status == status && s.token == token && !s.deleted
            then t.status.Rejected? && t.deleted && t == s.(status := t.status, deleted := true, deletes := t.deletes)
            else t == s.(deletes := t.deletes)
  {
  }

  /** No event of the PATCH request `p`, and no crash. */
  predicate BesidesPatch(e: Event, p: int) {
    !e.Crash? && !((e.PatchRead? || e.PatchWrite?) && e.request == p)
  }

  lemma OtherPatchStays(s: State, p: int, e: Event)
    requires p in s.patches && BesidesPatch(e, p) && !e.On?
    ensures p in Next(s, e).patches && Next(s, e).patches[p] == s.patches[p]
  {
    if !e.PatchRead? && !e.PatchWrite? {
      OnlyPatchesTouchPatches(s, e);
    }
  }

  lemma OnlyPatchesTouchPatches(s: State, e: Event)
    requires !e.PatchRead? && !e.PatchWrite? && !e.Crash? && !e.On?
    ensures Next(s, e).patches == s.patches
  {
  }

  lemma {:induction false} PatchStays(s: State, p: int, others: seq<Event>)
    requires p in s.patches && forall e <- others :: BesidesPatch(e, p)
    ensures p in Run(s, others).patches && Run(s, others).patches[p] == s.patches[p]
    decreases |others|
  {
    if others != [] {
      var r := Run(s, others[..|others| - 1]); var e := others[|others| - 1];
      PatchStays(s, p, others[..|others| - 1]);
      assert e in others;
      if e.On? {
        if e.call in r.calls { CallsLeaveTheRequests(r, e.call, e.step); }
      } else {
        OtherPatchStays(r, p, e);
      }
    }
  }

  /** A PATCH is accepted exactly for a status change the public may make, and it
      makes it if and only if the status is still the one it read; the deletion
      mark moves only if it gives a reason. */
  lemma PatchWritesIff(s: State, p: int, target: Status, reason: Option<bool>, others: seq<Event>)
    requires p !in s.patches && forall e <- others :: BesidesPatch(e, p)
    ensures p in Next(s, PatchRead(p, target, reason)).patches <==> PatchAccepts(s.status, target)
    ensures PatchAccepts(s.status, target) ==>
              var u := Run(Next(s, PatchRead(p, target, reason)), others); var t := Next(u, PatchWrite(p));
              if u.status == s.status
              then t == u.(status := target, deleted := if reason.Some? then reason.value else u.deleted,
                           patches := t.patches)
              else t == u.(patches := t.patches)
  {
    if PatchAccepts(s.status, target) {
      var c := Next(s, PatchRead(p, target, reason));
      assert c.patches[p] == Patch(s.status, target, reason);
      PatchStays(c, p, others);
      WritesWhatItRead(Run(c, others), p, s.status, target, reason);
    }
  }

  lemma WritesWhatItRead(s: State, p: int, status: Status, target: Status, reason: Option<bool>)
    requires p in s.patches && s.patches[p] == Patch(status, target, reason)
    ensures var t := Next(s, PatchWrite(p));
            if s.status == status
            then t == s.(status := target, deleted := if reason.Some? then reason.value else s.deleted,
                         patches := t.patches)
            else t == s.(patches := t.patches)
  {
  }
}
