/** Main results about the open-pr protocol. */
module OpenPrResults {
  import opened Common
  import opened Workflow
  import opened OpenPr
  import opened OpenPrSafety
  import OpenPrAnswer

  /** The commits of a PR that exists are read, and are a listing of it. */
  predicate ReadsCommits(s: State, pr: nat, step: CallStep)
    requires step.CommitsRead?
  {
    step.ok && pr < |s.prs| && Listing(s.prs[pr].head, step.commits)
  }

  // ------------------------------------------------------ one of everything

  predicate HasPr(s: State, p: Pid) {
    p in s.proposals.rows && s.proposals.rows[p].pr.Some?
  }

  /** What a call that is about to write to the remote may count on. */
  predicate AsksRightly(s: State, c: Call) {
    && (c.pc.Building? || c.pc.Pushing? ==> s.prs == [] && s.pendingCreates == 0)
    && (c.pc.Pushing? ==> c.pc.sha.proposal == c.proposal && c.proposal in s.proposals.rows
                          && s.proposals.rows[c.proposal].pushed == Some(c.pc.sha))
    && (c.pc.Creating? ==> s.branch == Some(c.pc.sha) && c.pc.owner == c.pc.sha.proposal
                           && c.pc.owner in s.proposals.rows && s.proposals.rows[c.pc.owner].pushed == s.branch)
  }

  /** One live call, one push that changed the branch, one open PR, and one
      proposal a PR is recorded on: the one whose commit every PR of the branch
      carries. The remote's own rules hold the last push and PR back; what the
      protocol adds is that no call builds or pushes once a PR exists or may
      still land, and none asks for a PR but of the commit at the tip, still
      its author's recorded intent. */
  lemma OneCallOnePushOneOpenPr(s: State)
    requires Reachable(s)
    ensures forall t, u :: t in s.calls && u in s.calls ==> t == u
    ensures s.pushes <= 1
    ensures forall i, j :: 0 <= i < |s.prs| && 0 <= j < |s.prs| && s.prs[i].open && s.prs[j].open ==> i == j
    ensures (forall pr <- s.prs :: pr.open) ==> |s.prs| <= 1
    ensures forall p, q :: HasPr(s, p) && HasPr(s, q) ==> p == q
    ensures forall p :: HasPr(s, p) ==>
              var n := s.proposals.rows[p].pr.value; n < |s.prs| && s.prs[n].head.proposal == p
    ensures forall i, j :: 0 <= i < |s.prs| && 0 <= j < |s.prs| ==> s.prs[i].head == s.prs[j].head
    ensures forall t <- s.calls :: AsksRightly(s, s.calls[t])
  {
    ReachableKeeps(s);
    HeadsAgree(s);
    forall t | t in s.calls ensures AsksRightly(s, s.calls[t]) {
      assert CallOk(s, s.calls[t]);
    }
    if |s.prs| > 1 {
      assert s.prs[0] in s.prs && !s.prs[0].open;
    }
  }

  lemma HeadsAgree(s: State)
    requires ProposalsOk(s) && RemoteOk(s)
    ensures forall i :: 0 <= i < |s.prs| ==> s.branch == Some(s.prs[i].head)
    ensures forall p :: HasPr(s, p) ==>
              var n := s.proposals.rows[p].pr.value; n < |s.prs| && s.prs[n].head.proposal == p
  {
    forall i | 0 <= i < |s.prs| ensures s.branch == Some(s.prs[i].head) {
      assert s.prs[i] in s.prs;
    }
  }

  /** How a call comes to push: it builds a commit only on reading the branch's
      tip and finding no branch, while no PR exists or may still land; and it
      pushes only what it has built and recorded as its proposal's intent. */
  lemma PushesAfterAnAbsentBranch(s: State, e: Event, t: Token)
    requires Reachable(s) && t in Next(s, e).calls
    ensures Next(s, e).calls[t].pc.Building? && !(t in s.calls && s.calls[t].pc.Building?) ==>
              && e == On(t, TipRead(true)) && t in s.calls && s.calls[t].pc.NoPr?
              && s.branch.None? && s.prs == [] && s.pendingCreates == 0
    ensures Next(s, e).calls[t].pc.Pushing? && !(t in s.calls && s.calls[t].pc.Pushing?) ==>
              && e.On? && e.call == t && e.step.CommitBuilt? && t in s.calls && s.calls[t].pc.Building?
              && AsksRightly(Next(s, e), Next(s, e).calls[t])
  {
    ReachableKeeps(s);
    StepKeeps(s, e);
    assert CallOk(Next(s, e), Next(s, e).calls[t]);
    if !e.On? {
      OutsideStartsNoPush(s, e, t);
    } else if e.call in s.calls && s.starting.None? {
      if t !in s.calls {
        CallsOnlyLeave(s, e.call, e.step, t);
      }
      CallStartsPush(s, t, e.step);
    }
  }

  lemma OutsideStartsNoPush(s: State, e: Event, t: Token)
    requires CallsOk(s) && !e.On? && t in Next(s, e).calls
    ensures Next(s, e).calls[t].pc.Waiting? || (t in s.calls && Next(s, e).calls[t].pc == s.calls[t].pc)
  {
    if !e.LateCreate? && !e.Crash? && !e.ClaimCas? {
      OutsideKeepsCalls(s, e);
    }
  }

  /** The steps that lead a call from one position to another that writes to the branch. */
  predicate MayPush(branch: Option<Sha>, from: Pc, step: CallStep, to: Pc) {
    && (to.Building? && !from.Building? ==> step == TipRead(true) && from.NoPr? && branch.None?)
    && (to.Pushing? && !from.Pushing? ==> step.CommitBuilt? && from.Building?)
  }

  lemma CallStartsPush(s: State, t: Token, step: CallStep)
    requires t in s.calls && t in RunCall(s, t, step).calls
    ensures MayPush(s.branch, s.calls[t].pc, step, RunCall(s, t, step).calls[t].pc)
  {
    match step
    case TipRead(ok) => TipStartsNoPush(s, t, ok);
    case CommitBuilt(salt) => BuildStartsAPush(s, t, salt);
    case PushEnded(arrived, answered) => PushEndStartsNoPush(s, t, arrived, answered);
    case CreateEnded(_, _) => RecordingStartsNoPush(s, t, step);
    case CommitsRead(_, _) => RecordingStartsNoPush(s, t, step);
    case _ => OtherStartsNoPush(s, t, step);
  }

  lemma TipStartsNoPush(s: State, t: Token, ok: bool)
    requires t in s.calls
    ensures var r := RunCall(s, t, TipRead(ok));
            t in r.calls && MayPush(s.branch, s.calls[t].pc, TipRead(ok), r.calls[t].pc)
  {
    var r := RunCall(s, t, TipRead(ok));
    assert r == s || r == At(s, t, r.calls[t].pc);
  }

  lemma BuildStartsAPush(s: State, t: Token, salt: int)
    requires t in s.calls
    ensures var r := RunCall(s, t, CommitBuilt(salt));
            t in r.calls && MayPush(s.branch, s.calls[t].pc, CommitBuilt(salt), r.calls[t].pc)
  {
  }

  lemma PushEndStartsNoPush(s: State, t: Token, arrived: bool, answered: bool)
    requires t in s.calls
    ensures var r := RunCall(s, t, PushEnded(arrived, answered));
            t in r.calls && MayPush(s.branch, s.calls[t].pc, PushEnded(arrived, answered), r.calls[t].pc)
  {
  }

  lemma OtherStartsNoPush(s: State, t: Token, step: CallStep)
    requires t in s.calls && t in RunCall(s, t, step).calls
    requires step.Begin? || step.FindAnswered? || step.FoundAgain? || step.Abort? || step.Release? || step.Leave?
    ensures MayPush(s.branch, s.calls[t].pc, step, RunCall(s, t, step).calls[t].pc)
  {
    if step.Abort? || step.Release? || step.Leave? {
      EndStartsNoPush(s, t, step);
    } else {
      FindStartsNoPush(s, t, step);
    }
  }

  lemma FindStartsNoPush(s: State, t: Token, step: CallStep)
    requires t in s.calls && (step.Begin? || step.FindAnswered? || step.FoundAgain?)
    ensures var r := RunCall(s, t, step);
            t in r.calls && !(r.calls[t].pc.Building? && !s.calls[t].pc.Building?)
            && !(r.calls[t].pc.Pushing? && !s.calls[t].pc.Pushing?)
  {
  }

  lemma EndStartsNoPush(s: State, t: Token, step: CallStep)
    requires t in s.calls && (step.Abort? || step.Release? || step.Leave?)
    ensures var r := RunCall(s, t, step);
            t in r.calls ==> r.calls[t].pc == s.calls[t].pc || r.calls[t].pc.Ending? || r.calls[t].pc.Leaving?
  {
  }

  lemma RecordingStartsNoPush(s: State, t: Token, step: CallStep)
    requires t in s.calls && (step.CreateEnded? || step.CommitsRead?)
    ensures var r := RunCall(s, t, step);
            t in r.calls && (r.calls[t].pc == s.calls[t].pc || r.calls[t].pc.Ending? || r.calls[t].pc.FindingAgain?)
  {
    var c := s.calls[t];
    if step.CommitsRead? && c.pc.Found? && ReadsCommits(s, c.pc.pr, step) {
      var owner := ResolveOwner(c.snap, s.prs[c.pc.pr].head, step.commits);
      if owner.Some? || c.requested.Some? {
        FinalizeEnds(s, t, if owner.Some? then owner.value else c.requested.value, c.pc.pr, None, false);
      }
    } else if step.CreateEnded? && c.pc.Creating? && step.arrived && s.branch.Some? && !Open(s.prs) {
      FinalizeEnds(AddPr(At(s, t, Ending)), t, c.pc.owner, |s.prs|, Some(c.pc.sha), true);
    }
  }

  lemma FinalizeEnds(s: State, t: Token, owner: Pid, pr: nat, pushed: Option<Sha>, created: bool)
    requires t in s.calls
    ensures var r := Finalize(s, t, owner, pr, pushed, created);
            t in r.calls && r.calls[t].pc.Ending?
  {
  }

  /** A creation reaches the remote in this step. */
  predicate CreateArrives(s: State, e: Event) {
    || (e.LateCreate? && s.pendingCreates > 0)
    || (e.On? && e.call in s.calls && s.starting.None? && s.calls[e.call].pc.Creating?
        && e.step.CreateEnded? && e.step.arrived)
  }

  lemma OnlyCreationsAddPrs(s: State, e: Event)
    requires !CreateArrives(s, e)
    ensures |Next(s, e).prs| == |s.prs|
  {
    if e.On? && e.call in s.calls && s.starting.None? {
      CallAddsNoPr(s, e.call, e.step);
    }
  }

  lemma CallAddsNoPr(s: State, t: Token, step: CallStep)
    requires t in s.calls && !(step.CreateEnded? && step.arrived && s.calls[t].pc.Creating?)
    ensures RunCall(s, t, step).prs == s.prs
  {
    var c := s.calls[t];
    if step.CommitsRead? {
      if c.pc.Found? && ReadsCommits(s, c.pc.pr, step) {
        var owner := ResolveOwner(c.snap, s.prs[c.pc.pr].head, step.commits);
        if owner.Some? {
          FinalizeLeavesTheRemote(s, t, owner.value, c.pc.pr, None, false);
        } else if c.requested.Some? {
          FinalizeLeavesTheRemote(s, t, c.requested.value, c.pc.pr, None, false);
        }
      }
    }
  }

  lemma FinalizeLeavesTheRemote(s: State, t: Token, owner: Pid, pr: nat, pushed: Option<Sha>, created: bool)
    requires t in s.calls
    ensures var r := Finalize(s, t, owner, pr, pushed, created);
            r.prs == s.prs && r.branch == s.branch && r.pushes == s.pushes && r.released == s.released
  {
  }

  lemma CreationsAddPrs(s: State, e: Event)
    requires CreateArrives(s, e) && s.branch.Some?
    ensures Next(s, e).prs == if Open(s.prs) then s.prs else s.prs + [Pr(s.branch.value, true)]
  {
    if e.On? {
      CreateAddsPr(s, e.call, e.step.answered);
    }
  }

  lemma CreateAddsPr(s: State, t: Token, answered: bool)
    requires t in s.calls && s.calls[t].pc.Creating? && s.branch.Some?
    ensures RunCall(s, t, CreateEnded(true, answered)).prs ==
            if Open(s.prs) then s.prs else s.prs + [Pr(s.branch.value, true)]
  {
    if !Open(s.prs) {
      var pc := s.calls[t].pc;
      FinalizeLeavesTheRemote(AddPr(At(s, t, Ending)), t, pc.owner, |s.prs|, Some(pc.sha), true);
    }
  }

  /** A further PR beside one that exists: exactly when a creation reaches the
      remote, a live call's or one given up earlier, while no PR is open. */
  lemma FurtherPrIff(s: State, e: Event)
    requires Reachable(s) && s.prs != []
    ensures |Next(s, e).prs| > |s.prs| <==> CreateArrives(s, e) && !Open(s.prs)
  {
    ReachableKeeps(s);
    if CreateArrives(s, e) {
      CreationsAddPrs(s, e);
    } else {
      OnlyCreationsAddPrs(s, e);
    }
  }

  /** A call asks for a PR beside an existing one only if its own listing
      answered "none" while a PR existed, or another call's creation landed
      after that listing. */
  lemma CreatingBesideAPr(s: State, t: Token)
    requires Reachable(s) && t in s.calls && s.calls[t].pc.Creating? && s.prs != []
    ensures s.calls[t].missed || s.calls[t].overtaken
  {
    ReachableKeeps(s);
  }

  /** What those two marks mean: the only steps that set them. */
  lemma MarksAreSetBy(s: State, e: Event, t: Token)
    requires Reachable(s) && t in s.calls && t in Next(s, e).calls
    ensures Next(s, e).calls[t].missed && !s.calls[t].missed ==>
              e == On(t, FindAnswered(true, false)) && s.calls[t].pc.Finding? && s.prs != []
    ensures Next(s, e).calls[t].overtaken && !s.calls[t].overtaken ==>
              e.LateCreate? && |Next(s, e).prs| > |s.prs|
  {
    ReachableKeeps(s);
    if !e.On? {
      OutsideMarks(s, e, t);
    } else if e.call in s.calls && s.starting.None? {
      CallMarks(s, e.call, e.step, t);
    }
  }

  lemma OutsideMarks(s: State, e: Event, t: Token)
    requires CallsOk(s) && !e.On? && t in s.calls && t in Next(s, e).calls
    ensures Next(s, e).calls[t].missed == s.calls[t].missed
    ensures Next(s, e).calls[t].overtaken && !s.calls[t].overtaken ==> e.LateCreate? && |Next(s, e).prs| > |s.prs|
  {
    if e.ClaimCas? {
      assert s.starting.Some? ==> s.starting.value.claimed;
    } else if !e.LateCreate? && !e.Crash? {
      OutsideKeepsCalls(s, e);
    }
  }

  lemma OutsideKeepsCalls(s: State, e: Event)
    requires !e.On? && !e.LateCreate? && !e.Crash? && !e.ClaimCas?
    ensures Next(s, e).calls == s.calls
  {
  }

  predicate SameMarks(a: map<Token, Call>, b: map<Token, Call>, t: Token) {
    t in a && t in b ==> a[t].missed == b[t].missed && a[t].overtaken == b[t].overtaken
  }

  lemma CallMarks(s: State, u: Token, step: CallStep, t: Token)
    requires u in s.calls && t in s.calls && t in RunCall(s, u, step).calls
    ensures var r := RunCall(s, u, step);
            && (r.calls[t].missed && !s.calls[t].missed ==>
                  t == u && step == FindAnswered(true, false) && s.calls[t].pc.Finding? && s.prs != [])
            && r.calls[t].overtaken == s.calls[t].overtaken
  {
    if step.CreateEnded? || step.CommitsRead? {
      RecordingMarks(s, u, step, t);
    } else if step.TipRead? {
      TipMarks(s, u, step.ok, t);
    } else if step.Begin? {
      BeginMarks(s, u, t);
    } else if step.CommitBuilt? {
      BuildMarks(s, u, step.salt, t);
    } else if step.PushEnded? {
      PushMarks(s, u, step.arrived, step.answered, t);
    } else if !step.FindAnswered? {
      OtherMarks(s, u, step, t);
    }
  }

  lemma BeginMarks(s: State, u: Token, t: Token)
    requires u in s.calls
    ensures SameMarks(s.calls, RunCall(s, u, Begin).calls, t)
  {
  }

  lemma TipMarks(s: State, u: Token, ok: bool, t: Token)
    requires u in s.calls
    ensures SameMarks(s.calls, RunCall(s, u, TipRead(ok)).calls, t)
  {
    var r := RunCall(s, u, TipRead(ok));
    if s.calls[u].pc.NoPr? {
      assert r == At(s, u, r.calls[u].pc);
    }
  }

  lemma BuildMarks(s: State, u: Token, salt: int, t: Token)
    requires u in s.calls
    ensures SameMarks(s.calls, RunCall(s, u, CommitBuilt(salt)).calls, t)
  {
  }

  lemma PushMarks(s: State, u: Token, arrived: bool, answered: bool, t: Token)
    requires u in s.calls
    ensures SameMarks(s.calls, RunCall(s, u, PushEnded(arrived, answered)).calls, t)
  {
  }

  lemma OtherMarks(s: State, u: Token, step: CallStep, t: Token)
    requires u in s.calls && (step.FoundAgain? || step.Abort? || step.Release? || step.Leave?)
    ensures SameMarks(s.calls, RunCall(s, u, step).calls, t)
  {
  }

  lemma FinalizeMarks(s: State, u: Token, owner: Pid, pr: nat, pushed: Option<Sha>, created: bool, t: Token)
    requires u in s.calls
    ensures SameMarks(s.calls, Finalize(s, u, owner, pr, pushed, created).calls, t)
  {
  }

  lemma RecordingMarks(s: State, u: Token, step: CallStep, t: Token)
    requires u in s.calls && (step.CreateEnded? || step.CommitsRead?)
    ensures SameMarks(s.calls, RunCall(s, u, step).calls, t)
  {
    var c := s.calls[u];
    if step.CommitsRead? {
      if c.pc.Found? && ReadsCommits(s, c.pc.pr, step) {
        var owner := ResolveOwner(c.snap, s.prs[c.pc.pr].head, step.commits);
        if owner.Some? {
          FinalizeMarks(s, u, owner.value, c.pc.pr, None, false, t);
        } else if c.requested.Some? {
          FinalizeMarks(s, u, c.requested.value, c.pc.pr, None, false, t);
        }
      }
    } else if c.pc.Creating? && step.arrived && s.branch.Some? && !Open(s.prs) {
      FinalizeMarks(AddPr(At(s, u, Ending)), u, c.pc.owner, |s.prs|, Some(c.pc.sha), true, t);
    }
  }

  ghost predicate Unmarked(s: State) {
    |s.prs| <= 1 && forall t <- s.calls :: !s.calls[t].missed && !s.calls[t].overtaken
  }

  /** A listing that misses nothing, and no creation landing late. */
  predicate Prompt(e: Event) {
    !e.LateCreate? && !(e.On? && e.step.FindAnswered? && !e.step.seen)
  }

  lemma NewCallsAreUnmarked(s: State, e: Event, t: Token)
    requires t in Next(s, e).calls && t !in s.calls
    ensures !Next(s, e).calls[t].missed && !Next(s, e).calls[t].overtaken
  {
    if e.On? && e.call in s.calls && s.starting.None? {
      CallsOnlyLeave(s, e.call, e.step, t);
    }
  }

  lemma CallsOnlyLeave(s: State, u: Token, step: CallStep, t: Token)
    requires u in s.calls && t !in s.calls
    ensures t !in RunCall(s, u, step).calls
  {
    if step.CreateEnded? || step.CommitsRead? {
      RecordingAddsNoCall(s, u, step, t);
    }
  }

  lemma RecordingAddsNoCall(s: State, u: Token, step: CallStep, t: Token)
    requires u in s.calls && t !in s.calls && (step.CreateEnded? || step.CommitsRead?)
    ensures t !in RunCall(s, u, step).calls
  {
    var c := s.calls[u];
    if step.CommitsRead? {
      if c.pc.Found? && ReadsCommits(s, c.pc.pr, step) {
        var owner := ResolveOwner(c.snap, s.prs[c.pc.pr].head, step.commits);
        if owner.Some? {
          FinalizeAddsNoCall(s, u, owner.value, c.pc.pr, None, false, t);
        } else if c.requested.Some? {
          FinalizeAddsNoCall(s, u, c.requested.value, c.pc.pr, None, false, t);
        }
      }
    } else if c.pc.Creating? && step.arrived && s.branch.Some? && !Open(s.prs) {
      FinalizeAddsNoCall(AddPr(At(s, u, Ending)), u, c.pc.owner, |s.prs|, Some(c.pc.sha), true, t);
    }
  }

  lemma FinalizeAddsNoCall(s: State, u: Token, owner: Pid, pr: nat, pushed: Option<Sha>, created: bool, t: Token)
    requires u in s.calls && t !in s.calls
    ensures t !in Finalize(s, u, owner, pr, pushed, created).calls
  {
  }

  lemma PrsGrowByOne(s: State, e: Event)
    requires RemoteOk(s)
    ensures |Next(s, e).prs| <= |s.prs| + 1
  {
    if !CreateArrives(s, e) {
      OnlyCreationsAddPrs(s, e);
    } else if s.branch.Some? {
      CreationsAddPrs(s, e);
    }
  }

  lemma PromptStep(s: State, e: Event)
    requires Reachable(s) && Unmarked(s) && Prompt(e)
    ensures Unmarked(Next(s, e))
  {
    ReachableKeeps(s);
    PrsGrowByOne(s, e);
    if s.prs != [] {
      FurtherPrIff(s, e);
      if CreateArrives(s, e) {
        CreatingBesideAPr(s, e.call);
      }
    }
    forall t | t in Next(s, e).calls ensures !Next(s, e).calls[t].missed && !Next(s, e).calls[t].overtaken {
      if t in s.calls {
        MarksAreSetBy(s, e, t);
      } else {
        NewCallsAreUnmarked(s, e, t);
      }
    }
  }

  /** Over every run in which no listing misses a PR and no creation lands
      late, at most one PR is ever created, closed or not. */
  lemma {:induction false} OnePrIfPrompt(s0: State, events: seq<Event>)
    requires Initial(s0) && forall e <- events :: Prompt(e)
    ensures Unmarked(Run(s0, events)) && |Run(s0, events).prs| <= 1
    decreases |events|
  {
    if events != [] {
      var before := events[..|events| - 1];
      OnePrIfPrompt(s0, before);
      assert events[|events| - 1] in events;
      assert Reachable(Run(s0, before));
      PromptStep(Run(s0, before), events[|events| - 1]);
    }
  }

  ghost predicate HasRecord(s: State) {
    exists p :: p in s.proposals.rows && s.proposals.rows[p].pr.Some?
  }

  /** Once a PR is recorded, no call is about to record another. */
  ghost predicate Over(s: State) {
    HasRecord(s) ==> s.starting.None? && forall t <- s.calls :: s.calls[t].finalized
  }

  lemma RecordedIsFound(s: State)
    requires ProposalsOk(s)
    ensures Recorded(s.proposals).Some? <==> HasRecord(s)
  {
  }

  ghost predicate Alone(s: State, t: Token) {
    && Sole(s.calls, t) && s.starting.None?
    && (s.calls[t].finalized ==> s.calls[t].pc.Ending? || s.calls[t].pc.Leaving?)
  }

  lemma FinalizedIsOver(s: State, t: Token, owner: Pid, pr: nat, pushed: Option<Sha>, created: bool)
    requires Alone(s, t) && !HasRecord(s)
    ensures Over(Finalize(s, t, owner, pr, pushed, created))
  {
    var r := Finalize(s, t, owner, pr, pushed, created);
    assert forall u <- r.calls :: u == t;
    if !r.calls[t].finalized {
      assert r.proposals == s.proposals;
    }
  }

  lemma FirstRecord(s: State, t: Token, step: CallStep)
    requires Alone(s, t) && !HasRecord(s) && (step.CreateEnded? || step.CommitsRead?)
    ensures Over(RunCall(s, t, step))
  {
    var r := RunCall(s, t, step);
    var c := s.calls[t];
    if step.CreateEnded? && c.pc.Creating? && step.arrived && s.branch.Some? && !Open(s.prs) && step.answered {
      FinalizedIsOver(AddPr(At(s, t, Ending)), t, c.pc.owner, |s.prs|, Some(c.pc.sha), true);
    } else if step.CommitsRead? && c.pc.Found? && ReadsCommits(s, c.pc.pr, step) {
      var head := s.prs[c.pc.pr].head;
      var owner := ResolveOwner(c.snap, head, step.commits);
      if owner.Some? || c.requested.Some? {
        FinalizedIsOver(s, t, if owner.Some? then owner.value else c.requested.value, c.pc.pr, None, false);
      } else {
        assert r.proposals == s.proposals;
      }
    } else {
      assert r.proposals == s.proposals;
    }
  }

  lemma NoRecordYet(s: State, t: Token, step: CallStep)
    requires Alone(s, t) && !HasRecord(s) && !step.CreateEnded? && !step.CommitsRead?
    ensures !HasRecord(RunCall(s, t, step))
  {
    var r := RunCall(s, t, step);
    assert forall p :: p in r.proposals.rows ==>
                         p in s.proposals.rows && r.proposals.rows[p].pr == s.proposals.rows[p].pr;
  }

  lemma EndedCallRecordsNothing(s: State, t: Token, step: CallStep)
    requires Alone(s, t) && s.calls[t].finalized
    ensures var r := RunCall(s, t, step);
            r.proposals == s.proposals && r.starting.None? && forall u <- r.calls :: r.calls[u].finalized
  {
  }

  lemma CallStepStaysOver(s: State, t: Token, step: CallStep)
    requires Alone(s, t) && Over(s)
    ensures Over(RunCall(s, t, step))
    ensures HasRecord(s) ==> RunCall(s, t, step).proposals == s.proposals
  {
    if HasRecord(s) {
      EndedCallRecordsNothing(s, t, step);
    } else if step.CreateEnded? || step.CommitsRead? {
      FirstRecord(s, t, step);
    } else {
      NoRecordYet(s, t, step);
    }
  }

  lemma OtherStepStaysOver(s: State, e: Event)
    requires ProposalsOk(s) && Over(s) && !e.On?
    ensures Over(Next(s, e))
    ensures forall p :: p in s.proposals.rows ==>
              p in Next(s, e).proposals.rows && Next(s, e).proposals.rows[p] == s.proposals.rows[p]
  {
    OtherStepKeepsRows(s, e);
    if HasRecord(s) {
      RecordedIsFound(s);
      RecordBlocksCalls(s, e);
    } else {
      assert !HasRecord(Next(s, e));
    }
  }

  lemma RecordBlocksCalls(s: State, e: Event)
    requires Recorded(s.proposals).Some? && s.starting.None? && !e.On?
    requires forall t <- s.calls :: s.calls[t].finalized
    ensures Next(s, e).starting.None? && forall t <- Next(s, e).calls :: Next(s, e).calls[t].finalized
  {
    if e.Check? {
      assert CheckOpen(s, e.token, e.requested, e.configured).starting.None?;
    } else if !e.Crash? && !e.LateCreate? {
      assert Next(s, e).calls == s.calls;
    }
  }

  lemma OtherStepKeepsRows(s: State, e: Event)
    requires !e.On?
    ensures var r := Next(s, e);
            && (forall p :: p in s.proposals.rows ==>
                  p in r.proposals.rows && r.proposals.rows[p] == s.proposals.rows[p])
            && (forall p :: p in r.proposals.rows ==> p in s.proposals.rows || r.proposals.rows[p].pr.None?)
  {
  }

  lemma StepStaysOver(s: State, e: Event)
    requires Inv(s) && Over(s)
    ensures Over(Next(s, e))
    ensures forall p :: p in s.proposals.rows && s.proposals.rows[p].pr.Some? ==>
              p in Next(s, e).proposals.rows && Next(s, e).proposals.rows[p] == s.proposals.rows[p]
  {
    if !e.On? {
      OtherStepStaysOver(s, e);
    } else if e.call in s.calls && s.starting.None? {
      assert Alone(s, e.call);
      CallStepStaysOver(s, e.call, e.step);
    }
  }

  lemma {:induction false} RunStaysOver(s: State, events: seq<Event>)
    requires Inv(s) && Over(s)
    ensures var r := Run(s, events);
            && Inv(r) && Over(r)
            && (forall p :: p in s.proposals.rows && s.proposals.rows[p].pr.Some? ==>
                  p in r.proposals.rows && r.proposals.rows[p] == s.proposals.rows[p])
    decreases |events|
  {
    if events != [] {
      var r := Run(s, events[..|events| - 1]);
      RunStaysOver(s, events[..|events| - 1]);
      StepKeeps(r, events[|events| - 1]);
      StepStaysOver(r, events[|events| - 1]);
    }
  }

  /** A recorded PR is final: no later run changes its proposal's row or
      records another. */
  lemma RecordIsFinal(s: State, events: seq<Event>, p: Pid)
    requires Reachable(s) && p in s.proposals.rows && s.proposals.rows[p].pr.Some?
    ensures var r := Run(s, events);
            p in r.proposals.rows && r.proposals.rows[p] == s.proposals.rows[p] && Recorded(r.proposals) == Some(p)
  {
    var s0: State, before: seq<Event> :| Initial(s0) && s == Run(s0, before);
    RunStaysOver(s0, before);
    RunStaysOver(s, events);
    RecordedIsFound(Run(s, events));
  }

  /** Every answer names the PR its proposal has. */
  predicate RepliesExact(s: State) {
    forall r <- s.replies :: r.proposal in s.proposals.rows && s.proposals.rows[r.proposal].pr == Some(r.pr)
  }

  /** The step answered its own call: with the PR it has just created, or with
      one that was there, and the proposal has exactly that PR. */
  predicate AnswersNow(s: State, e: Event, n: State) {
    && |n.replies| == |s.replies| + 1 && n.replies[..|s.replies|] == s.replies
    && var r := n.replies[|s.replies|];
       && r.proposal in n.proposals.rows && n.proposals.rows[r.proposal].pr == Some(r.pr)
       && (r.created <==> e.On? && e.step.CreateEnded?)
       && (if r.created then r.pr == |s.prs| && |n.prs| == |s.prs| + 1 else r.pr < |s.prs| && n.prs == s.prs)
  }

  lemma FinalizeAnswers(s: State, t: Token, owner: Pid, pr: nat, pushed: Option<Sha>, created: bool)
    requires t in s.calls
    ensures var r := Finalize(s, t, owner, pr, pushed, created);
            && (r.replies == s.replies || r.replies == s.replies + [Reply(s.calls[t].requested, owner, pr, created)])
            && (r.replies != s.replies ==> owner in r.proposals.rows && r.proposals.rows[owner].pr == Some(pr))
  {
  }

  lemma StepAnswers(s: State, e: Event)
    requires Inv(s)
    ensures Next(s, e).replies == s.replies || AnswersNow(s, e, Next(s, e))
  {
    if e.On? && e.call in s.calls && s.starting.None? {
      CallAnswers(s, e.call, e.step);
    } else if e.Check? && s.starting.None? && e.token !in s.used {
      RecordedIsFound(s);
      CheckAnswers(s, e.token, e.requested, e.configured);
    } else {
      OthersAnswerNothing(s, e);
    }
  }

  lemma OthersAnswerNothing(s: State, e: Event)
    requires e.On? ==> e.call !in s.calls || s.starting.Some?
    requires e.Check? ==> s.starting.Some? || e.token in s.used
    ensures Next(s, e).replies == s.replies
  {
  }

  lemma CallAnswers(s: State, t: Token, step: CallStep)
    requires Inv(s) && t in s.calls && s.starting.None?
    ensures RunCall(s, t, step).replies == s.replies || AnswersNow(s, On(t, step), RunCall(s, t, step))
  {
    if step.CreateEnded? {
      CreateAnswers(s, t, step);
    } else if step.CommitsRead? {
      CommitsAnswer(s, t, step);
    } else {
      OtherStepsAnswerNothing(s, t, step);
    }
  }

  lemma CheckAnswers(s: State, token: Token, requested: Option<Pid>, configured: bool)
    requires ProposalsOk(s)
    ensures var n := CheckOpen(s, token, requested, configured);
            n.replies == s.replies || AnswersNow(s, Check(token, requested, configured), n)
  {
    var n := CheckOpen(s, token, requested, configured);
    if n.replies != s.replies {
      assert n.replies[..|s.replies|] == s.replies;
    }
  }

  lemma OtherStepsAnswerNothing(s: State, t: Token, step: CallStep)
    requires t in s.calls && !step.CreateEnded? && !step.CommitsRead?
    ensures RunCall(s, t, step).replies == s.replies
  {
  }

  lemma CreateAnswers(s: State, t: Token, step: CallStep)
    requires Inv(s) && t in s.calls && s.starting.None? && step.CreateEnded?
    ensures RunCall(s, t, step).replies == s.replies || AnswersNow(s, On(t, step), RunCall(s, t, step))
  {
    var c := s.calls[t];
    if c.pc.Creating? && step.arrived && s.branch.Some? && !Open(s.prs) && step.answered {
      var a := AddPr(At(s, t, Ending));
      FinalizeAnswers(a, t, c.pc.owner, |s.prs|, Some(c.pc.sha), true);
      FinalizeLeavesTheRemote(a, t, c.pc.owner, |s.prs|, Some(c.pc.sha), true);
    }
  }

  lemma CommitsAnswer(s: State, t: Token, step: CallStep)
    requires Inv(s) && t in s.calls && s.starting.None? && step.CommitsRead?
    ensures RunCall(s, t, step).replies == s.replies || AnswersNow(s, On(t, step), RunCall(s, t, step))
  {
    var c := s.calls[t];
    if c.pc.Found? && ReadsCommits(s, c.pc.pr, step) {
      var owner := ResolveOwner(c.snap, s.prs[c.pc.pr].head, step.commits);
      if owner.Some? || c.requested.Some? {
        var p := if owner.Some? then owner.value else c.requested.value;
        FinalizeAnswers(s, t, p, c.pc.pr, None, false);
        FinalizeLeavesTheRemote(s, t, p, c.pc.pr, None, false);
      }
    }
  }

  lemma RepliesStayExact(s: State, e: Event)
    requires Inv(s) && Over(s) && RepliesExact(s)
    ensures RepliesExact(Next(s, e))
  {
    StepStaysOver(s, e);
    StepAnswers(s, e);
    RepliesGrow(s, e, Next(s, e));
  }

  lemma RepliesGrow(s: State, e: Event, n: State)
    requires RepliesExact(s) && (n.replies == s.replies || AnswersNow(s, e, n))
    requires forall p :: p in s.proposals.rows && s.proposals.rows[p].pr.Some? ==>
               p in n.proposals.rows && n.proposals.rows[p] == s.proposals.rows[p]
    ensures RepliesExact(n)
  {
    forall r | r in n.replies ensures r.proposal in n.proposals.rows && n.proposals.rows[r.proposal].pr == Some(r.pr) {
      if r !in s.replies {
        assert n.replies == n.replies[..|s.replies|] + [n.replies[|s.replies|]];
      }
    }
  }

  lemma {:induction false} RunRepliesExact(s: State, events: seq<Event>)
    requires Inv(s) && Over(s) && RepliesExact(s)
    ensures RepliesExact(Run(s, events))
    decreases |events|
  {
    if events != [] {
      RunStaysOver(s, events[..|events| - 1]);
      RunRepliesExact(s, events[..|events| - 1]);
      RepliesStayExact(Run(s, events[..|events| - 1]), events[|events| - 1]);
    }
  }

  /** Every 200 and 201 answer ever given still holds: its PR is recorded on
      the proposal it names, which is the one requested, if one was, and it is
      that proposal's PR. */
  lemma AnswersHold(s: State, r: Reply)
    requires Reachable(s) && r in s.replies
    ensures Recorded(s.proposals) == Some(r.proposal)
    ensures r.proposal in s.proposals.rows && s.proposals.rows[r.proposal].pr == Some(r.pr) && r.pr < |s.prs|
    ensures OpenPrAnswer.Answers(Recorded(s.proposals), r.requested)
  {
    ReachableKeeps(s);
    RecordedIsFound(s);
    var s0: State, events: seq<Event> :| Initial(s0) && s == Run(s0, events);
    RunRepliesExact(s0, events);
  }

  /** An answer says `created` exactly when the call's own creation made that
      PR; otherwise the PR was there. */
  lemma AnswerIsCreatedIff(s: State, e: Event)
    requires Reachable(s) && Next(s, e).replies != s.replies
    ensures AnswersNow(s, e, Next(s, e))
  {
    ReachableKeeps(s);
    StepAnswers(s, e);
  }

  // ------------------------------------------------------------- the claim

  lemma OthersLeaveTheClaim(s: State, t: Token, e: Event)
    requires CallsOk(s) && RequestsOk(s) && t in s.calls && Holds(s, t)
    requires !e.StatusWritten? && !e.DeleteWrite? && !(e.On? && e.call == t)
    ensures Next(s, e).status == s.status && Next(s, e).token == s.token
  {
    if e.On? {
      assert e.call !in s.calls || s.starting.Some?;
    } else if e.PatchWrite? && e.request in s.patches {
      assert !s.patches[e.request].from.FixApproved?;
    }
  }

  /** While a call holds its claim, no step of anything else moves the
      report's status or token, except a pipeline stage's unconditional
      write and a DELETE's write, whose case is next. */
  lemma ClaimIsExclusive(s: State, t: Token, e: Event)
    requires Reachable(s) && t in s.calls && Holds(s, t)
    requires !e.StatusWritten? && !e.DeleteWrite? && !(e.On? && e.call == t)
    ensures Next(s, e).status == s.status && Next(s, e).token == s.token
  {
    ReachableKeeps(s);
    OthersLeaveTheClaim(s, t, e);
  }

  lemma FinalizeClaim(s: State, t: Token, owner: Pid, pr: nat, pushed: Option<Sha>, created: bool)
    requires t in s.calls && Holds(s, t)
    ensures var r := Finalize(s, t, owner, pr, pushed, created);
            Holds(r, t) || (r.status.FixCommitted? && r.token.None? && t in r.calls && r.calls[t].finalized)
  {
  }

  lemma FinalizingStep(s: State, t: Token, step: CallStep)
    requires t in s.calls && Holds(s, t) && (step.CreateEnded? || step.CommitsRead?)
    ensures var r := RunCall(s, t, step);
            Holds(r, t) || (r.status.FixCommitted? && r.token.None? && t in r.calls && r.calls[t].finalized)
  {
    var c := s.calls[t];
    if step.CreateEnded? && c.pc.Creating? && step.arrived && s.branch.Some? && !Open(s.prs) && step.answered {
      FinalizeClaim(AddPr(At(s, t, Ending)), t, c.pc.owner, |s.prs|, Some(c.pc.sha), true);
    } else if step.CommitsRead? && c.pc.Found? && ReadsCommits(s, c.pc.pr, step) {
      var head := s.prs[c.pc.pr].head;
      var owner := ResolveOwner(c.snap, head, step.commits);
      if owner.Some? || c.requested.Some? {
        FinalizeClaim(s, t, if owner.Some? then owner.value else c.requested.value, c.pc.pr, None, false);
      }
    }
  }

  lemma OtherCallStep(s: State, t: Token, step: CallStep)
    requires t in s.calls && Holds(s, t) && !step.CreateEnded? && !step.CommitsRead?
    ensures var r := RunCall(s, t, step);
            Holds(r, t) || (step == Release(true) && r.status.FixProposed? && r.token.None? && !s.calls[t].finalized)
  {
  }

  /** The holder itself gives its claim up only by recording the PR or by
      releasing it. */
  lemma HolderKeepsItsClaim(s: State, t: Token, step: CallStep)
    requires t in s.calls && Holds(s, t)
    ensures var r := Next(s, On(t, step));
            Holds(r, t)
            || (r.status.FixCommitted? && r.token.None? && t in r.calls && r.calls[t].finalized)
            || (step == Release(true) && r.status.FixProposed? && r.token.None? && !s.calls[t].finalized)
  {
    if s.starting.None? {
      if step.CreateEnded? || step.CommitsRead? {
        FinalizingStep(s, t, step);
      } else {
        OtherCallStep(s, t, step);
      }
    }
  }

  lemma DeleteHits(s: State, t: Token, d: int)
    requires CallsOk(s) && RequestsOk(s) && t in s.calls && Holds(s, t)
    ensures Next(s, DeleteWrite(d)).status != s.status <==>
            && d in s.deletes && s.deletes[d].early && s.deletes[d].passed && !s.deleted
            && s.deletes[d].status.FixApproved? && s.deletes[d].token == Some(t)
    ensures Next(s, DeleteWrite(d)).token == s.token
  {
  }

  /** A DELETE's write takes the claim from a live call exactly when it had
      read that claim's token and checked for a running call before that call
      was registered. */
  lemma DeleteTakesALiveClaimIff(s: State, t: Token, d: int)
    requires Reachable(s) && t in s.calls && Holds(s, t)
    ensures Next(s, DeleteWrite(d)).status != s.status <==>
            && d in s.deletes && s.deletes[d].early && s.deletes[d].passed && !s.deleted
            && s.deletes[d].status.FixApproved? && s.deletes[d].token == Some(t)
    ensures Next(s, DeleteWrite(d)).token == s.token
  {
    ReachableKeeps(s);
    DeleteHits(s, t, d);
  }

  /** A claim whose release write succeeded never comes back. */
  lemma ReleasedClaimIsGone(s: State, events: seq<Event>, t: Token)
    requires Reachable(s) && t in s.calls && s.calls[t].pc.Ending? && !s.calls[t].finalized
    ensures !Holds(Run(Next(s, On(t, Release(true))), events), t)
  {
    ReachableKeeps(s);
    var e := On(t, Release(true));
    StepKeeps(s, e);
    ReleaseIsNoted(s, t);
    ReleasedStaysGone(Next(s, e), events, t);
  }

  lemma ReleaseIsNoted(s: State, t: Token)
    requires CallsOk(s) && t in s.calls && s.calls[t].pc.Ending? && !s.calls[t].finalized
    ensures t in Next(s, On(t, Release(true))).released
  {
  }

  lemma ReleasedStaysGone(s: State, events: seq<Event>, t: Token)
    requires Inv(s) && t in s.released
    ensures !Holds(Run(s, events), t)
  {
    RunKeeps(s, events);
    ReleasedStays(s, events, t);
  }

  lemma RecordingReleasesNothing(s: State, t: Token, step: CallStep)
    requires t in s.calls && (step.CreateEnded? || step.CommitsRead?)
    ensures RunCall(s, t, step).released == s.released
  {
    var c := s.calls[t];
    if step.CommitsRead? && c.pc.Found? && ReadsCommits(s, c.pc.pr, step) {
      var head := s.prs[c.pc.pr].head;
      var owner := ResolveOwner(c.snap, head, step.commits);
      if owner.Some? || c.requested.Some? {
        FinalizeLeavesTheRemote(s, t, if owner.Some? then owner.value else c.requested.value, c.pc.pr, None, false);
      }
    }
  }

  lemma CallReleasedOnlyGrows(s: State, t: Token, step: CallStep)
    requires t in s.calls && !step.CreateEnded? && !step.CommitsRead?
    ensures s.released <= RunCall(s, t, step).released
  {
  }

  lemma ReleasedOnlyGrows(s: State, e: Event)
    ensures s.released <= Next(s, e).released
  {
    if e.On? {
      if e.call in s.calls {
        if e.step.CreateEnded? || e.step.CommitsRead? {
          RecordingReleasesNothing(s, e.call, e.step);
        } else {
          CallReleasedOnlyGrows(s, e.call, e.step);
        }
      }
    } else {
      assert Next(s, e).released == s.released;
    }
  }

  lemma {:induction false} ReleasedStays(s: State, events: seq<Event>, t: Token)
    requires t in s.released
    ensures t in Run(s, events).released
    decreases |events|
  {
    if events != [] {
      ReleasedStays(s, events[..|events| - 1], t);
      ReleasedOnlyGrows(Run(s, events[..|events| - 1]), events[|events| - 1]);
    }
  }
}
