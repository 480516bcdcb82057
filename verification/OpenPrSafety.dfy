/** What the open-pr protocol guarantees over every run. */
module OpenPrSafety {
  import opened Common
  import opened Workflow
  import opened OpenPr

  // ---------------------------------------------------------------- invariant

  // Each part of the invariant names the fields it reads, so a step that leaves
  // them alone keeps it at sight.

  predicate Sole(calls: map<Token, Call>, t: Token) {
    t in calls && forall u <- calls :: u == t
  }

  /** Every live call is the registered one, or the one about to register. */
  predicate CallsFit(calls: map<Token, Call>, active: Option<Token>, starting: Option<Start>, used: set<Token>) {
    && (forall t <- calls :: t in used)
    && (active.Some? ==> starting.None? && Sole(calls, active.value))
    && (active.None? && starting.None? ==> forall t <- calls :: false)
    && (starting.Some? ==> starting.value.token in used)
    && (starting.Some? && starting.value.claimed ==>
          Sole(calls, starting.value.token) && calls[starting.value.token].pc.Waiting?)
    && (starting.Some? && !starting.value.claimed ==> forall t <- calls :: false)
  }

  /** `t` is not in use by a call that has yet to claim. */
  predicate Settled(used: set<Token>, starting: Option<Start>, t: Token) {
    t in used && (starting.Some? && !starting.value.claimed ==> t != starting.value.token)
  }

  /** A released token holds nothing, and its call only has to leave. */
  predicate TokensFit(status: Status, token: Option<Token>, released: set<Token>, calls: map<Token, Call>,
                      starting: Option<Start>, used: set<Token>) {
    && (token.Some? ==> Settled(used, starting, token.value))
    && (forall t <- released :: Settled(used, starting, t) && !(status.FixApproved? && token == Some(t)))
    && (forall t <- released :: t in calls ==> calls[t].pc.Leaving?)
  }

  /** A DELETE that passed its check against a live call's claim passed it early;
      a PATCH touches no claim. */
  predicate RequestsFit(deletes: map<int, Delete>, patches: map<int, Patch>, calls: map<Token, Call>,
                        starting: Option<Start>, used: set<Token>) {
    && (forall d <- deletes :: deletes[d].token.Some? ==> Settled(used, starting, deletes[d].token.value))
    && (forall d <- deletes ::
          deletes[d].passed && deletes[d].token.Some? && deletes[d].token.value in calls ==> deletes[d].early)
    && (forall p <- patches :: !patches[p].from.FixApproved? && !patches[p].to.FixApproved?)
  }

  predicate NamesItself(rows: map<Pid, Proposal>) {
    forall p <- rows :: rows[p].pushed.Some? ==> rows[p].pushed.value.proposal == p
  }

  /** Every recorded intent names its proposal; a PR is recorded on the branch's author only. */
  predicate ProposalsFit(ps: Proposals, branch: Option<Sha>, prs: seq<Pr>) {
    && (forall p <- ps.order :: p in ps.rows)
    && (forall p <- ps.rows :: p in ps.order)
    && NamesItself(ps.rows)
    && (forall p <- ps.rows :: ps.rows[p].pr.Some? ==>
          branch.Some? && branch.value.proposal == p && ps.rows[p].pr.value < |prs|)
  }

  /** The branch's tip is still its author's recorded intent. */
  predicate Matched(rows: map<Pid, Proposal>, branch: Option<Sha>) {
    branch.Some? && branch.value.proposal in rows && rows[branch.value.proposal].pushed == branch
  }

  /** The branch has an author and was pushed once; its tip is every PR's head;
      at most the newest PR is open; and no PR exists, or is asked for, but on a
      branch whose intent still matches. */
  predicate RemoteFit(rows: map<Pid, Proposal>, branch: Option<Sha>, prs: seq<Pr>, pushes: nat,
                      sentPushes: set<Sha>, pendingCreates: nat) {
    && (branch.Some? ==> branch.value.proposal in rows)
    && pushes == (if branch.Some? then 1 else 0)
    && (forall pr <- prs :: branch == Some(pr.head))
    && (forall i :: 0 <= i < |prs| - 1 ==> !prs[i].open)
    && (forall sha <- sentPushes :: sha.proposal in rows)
    && (prs != [] || pendingCreates > 0 ==> Matched(rows, branch))
  }

  /** Every intent of a call's snapshot is still the recorded one. */
  predicate SameIntents(snap: map<Pid, Proposal>, rows: map<Pid, Proposal>) {
    forall p <- snap :: p in rows && snap[p].pushed == rows[p].pushed
  }

  /** A call's snapshot has the author of the branch and of every push that may
      still land, and every intent in it names its proposal. */
  predicate SnapFits(branch: Option<Sha>, sentPushes: set<Sha>, c: Call) {
    && NamesItself(c.snap.rows)
    && (branch.Some? ==> branch.value.proposal in c.snap.rows)
    && (forall sha <- sentPushes :: sha.proposal in c.snap.rows)
    && c.proposal in c.snap.rows
  }

  predicate CallFits(rows: map<Pid, Proposal>, branch: Option<Sha>, prs: seq<Pr>, sentPushes: set<Sha>,
                     pendingCreates: nat, c: Call) {
    && c.proposal in rows
    && (c.requested.Some? ==> c.requested == Some(c.proposal))
    && (!c.pc.Waiting? && !c.pc.Ending? && !c.pc.Leaving? ==> SnapFits(branch, sentPushes, c))
    && (c.pc.Finding? || c.pc.NoPr? ==> SameIntents(c.snap.rows, rows))
    && (c.pc.NoPr? || c.pc.Creating? ==> prs == [] || c.missed || c.overtaken)
    && (c.pc.Building? || c.pc.Pushing? ==> prs == [] && pendingCreates == 0)
    && (c.pc.Pushing? ==>
          c.pc.sha in sentPushes && c.pc.sha.proposal == c.proposal && rows[c.proposal].pushed == Some(c.pc.sha))
    && (c.pc.Creating? ==> branch == Some(c.pc.sha) && c.pc.owner == c.pc.sha.proposal && Matched(rows, branch))
    && (c.pc.Found? ==> c.pc.pr < |prs|)
    && (c.finalized ==> c.pc.Ending? || c.pc.Leaving?)
    && (c.finalized ==> branch.Some? && branch.value.proposal in rows && rows[branch.value.proposal].pr.Some?)
  }

  predicate AllCallsFit(rows: map<Pid, Proposal>, branch: Option<Sha>, prs: seq<Pr>, sentPushes: set<Sha>,
                        pendingCreates: nat, calls: map<Token, Call>) {
    forall t <- calls :: CallFits(rows, branch, prs, sentPushes, pendingCreates, calls[t])
  }

  /** Every answer names a proposal a PR is recorded on, the requested one if one was. */
  predicate RepliesFit(rows: map<Pid, Proposal>, replies: seq<Reply>) {
    forall r <- replies ::
      && r.proposal in rows && rows[r.proposal].pr.Some?
      && (r.requested.Some? ==> r.requested == Some(r.proposal))
  }

  predicate StartFits(rows: map<Pid, Proposal>, starting: Option<Start>) {
    starting.Some? ==>
      && starting.value.proposal in rows
      && (starting.value.requested.Some? ==> starting.value.requested == Some(starting.value.proposal))
  }

  predicate CallsOk(s: State) { CallsFit(s.calls, s.active, s.starting, s.used) }

  predicate TokensOk(s: State) { TokensFit(s.status, s.token, s.released, s.calls, s.starting, s.used) }

  predicate RequestsOk(s: State) { RequestsFit(s.deletes, s.patches, s.calls, s.starting, s.used) }

  predicate ProposalsOk(s: State) { ProposalsFit(s.proposals, s.branch, s.prs) }

  predicate RemoteOk(s: State) {
    RemoteFit(s.proposals.rows, s.branch, s.prs, s.pushes, s.sentPushes, s.pendingCreates)
  }

  predicate CallOk(s: State, c: Call) { CallFits(s.proposals.rows, s.branch, s.prs, s.sentPushes, s.pendingCreates, c) }

  predicate RepliesOk(s: State) { RepliesFit(s.proposals.rows, s.replies) }

  predicate CallsFitRemote(s: State) {
    AllCallsFit(s.proposals.rows, s.branch, s.prs, s.sentPushes, s.pendingCreates, s.calls)
  }

  predicate Inv(s: State) {
    && CallsOk(s) && TokensOk(s) && RequestsOk(s) && ProposalsOk(s) && RemoteOk(s) && RepliesOk(s)
    && CallsFitRemote(s)
    && StartFits(s.proposals.rows, s.starting)
  }

  // ------------------------------------------------------- steps of the call

  lemma {:induction false} TrailerIsTheAuthor(ps: Proposals, head: Sha, commits: seq<Commit>)
    requires head.proposal in ps.rows && Listing(head, commits)
    ensures ByTrailer(ps, commits) == Some(head.proposal)
    decreases |commits|
  {
    if !commits[0].Ours? {
      assert commits == [commits[0]] + commits[1..];
      TrailerIsTheAuthor(ps, head, commits[1..]);
    } else {
      assert commits[0] in commits;
    }
  }

  /** From a snapshot that has him, by recorded intent or by trailer, among any
      commits of others: the proposal `_resolve_owner` finds is the author of
      the PR's head. */
  lemma OwnerIsTheAuthor(ps: Proposals, head: Sha, commits: seq<Commit>)
    requires head.proposal in ps.rows && NamesItself(ps.rows) && Listing(head, commits)
    ensures ResolveOwner(ps, head, commits) == Some(head.proposal)
  {
    var byIntent := ByIntent(ps, Shas(commits) + {head});
    assert Shas(commits) + {head} == {head};
    assert byIntent <= {head.proposal};
    TrailerIsTheAuthor(ps, head, commits);
  }

  lemma FinalizeKeeps(s: State, t: Token, owner: Pid, pr: nat, pushed: Option<Sha>, created: bool)
    requires Inv(s) && t in s.calls && s.starting.None? && !s.calls[t].pc.Leaving?
    requires s.branch.Some? && s.branch.value.proposal == owner && pr < |s.prs|
    requires pushed.Some? ==> pushed == s.branch
    ensures Inv(Finalize(s, t, owner, pr, pushed, created))
  {
    if !Holds(s, t) {
      MoveKeeps(s, t, s.calls[t].(pc := Ending));
    } else {
      RecordedKeeps(s, t, owner, pr, pushed);
      var f := Finalize(s, t, owner, pr, pushed, true).(replies := s.replies);
      var r := Reply(s.calls[t].requested, owner, pr, created);
      if r.requested.None? || r.requested.value == owner {
        ReplyKeeps(f, r);
      }
    }
  }

  lemma RecordedKeeps(s: State, t: Token, owner: Pid, pr: nat, pushed: Option<Sha>)
    requires Inv(s) && t in s.calls && s.starting.None? && !s.calls[t].pc.Leaving? && Holds(s, t)
    requires s.branch.Some? && s.branch.value.proposal == owner && pr < |s.prs|
    requires pushed.Some? ==> pushed == s.branch
    ensures Inv(Finalize(s, t, owner, pr, pushed, true).(replies := s.replies))
  {
    var c := s.calls[t].(pc := Ending);
    MoveKeeps(s, t, c);
    RecordKeeps(Put(s, t, c), t, owner, pr, pushed);
    MarkKeeps(Written(Put(s, t, c), owner, pr, pushed), t);
    FinalizeInSteps(s, t, owner, pr, pushed);
  }

  lemma MarkKeeps(s: State, t: Token)
    requires Inv(s) && t in s.calls && s.starting.None? && s.calls[t].pc.Ending?
    requires s.branch.Some? && s.branch.value.proposal in s.proposals.rows
    requires s.proposals.rows[s.branch.value.proposal].pr.Some?
    ensures Inv(Put(s, t, s.calls[t].(finalized := true)))
  {
    MoveKeeps(s, t, s.calls[t].(finalized := true));
  }

  lemma FinalizeInSteps(s: State, t: Token, owner: Pid, pr: nat, pushed: Option<Sha>)
    requires t in s.calls && Holds(s, t) && owner in s.proposals.rows
    ensures var c := s.calls[t].(pc := Ending);
            Finalize(s, t, owner, pr, pushed, true).(replies := s.replies) ==
            Put(Written(Put(s, t, c), owner, pr, pushed), t, c.(finalized := true))
  {
    var c := s.calls[t].(pc := Ending);
    assert s.calls[t := c][t := c.(finalized := true)] == s.calls[t := c.(finalized := true)];
  }

  /** What the finalizing transaction writes. */
  function Written(s: State, owner: Pid, pr: nat, pushed: Option<Sha>): State
    requires owner in s.proposals.rows
  {
    var row := Proposal(if pushed.Some? then pushed else s.proposals.rows[owner].pushed, Some(pr));
    s.(status := FixCommitted, token := None, proposals := s.proposals.(rows := s.proposals.rows[owner := row]))
  }

  lemma ReplyKeeps(s: State, r: Reply)
    requires Inv(s) && r.proposal in s.proposals.rows && s.proposals.rows[r.proposal].pr.Some?
    requires r.requested.Some? ==> r.requested == Some(r.proposal)
    ensures Inv(s.(replies := s.replies + [r]))
  {
  }

  lemma RecordKeeps(s: State, t: Token, owner: Pid, pr: nat, pushed: Option<Sha>)
    requires Inv(s) && t in s.calls && s.starting.None? && s.calls[t].pc.Ending?
    requires s.branch.Some? && s.branch.value.proposal == owner && pr < |s.prs|
    requires pushed.Some? ==> pushed == s.branch
    ensures Inv(Written(s, owner, pr, pushed)) && Written(s, owner, pr, pushed).proposals.rows[owner].pr.Some?
  {
    assert Sole(s.calls, t);
  }

  lemma MoveKeeps(s: State, t: Token, c: Call)
    requires Inv(s) && t in s.calls && CallOk(s, c) && s.starting.None?
    requires s.calls[t].pc.Leaving? ==> c.pc.Leaving?
    ensures Inv(Put(s, t, c))
  {
  }

  lemma FindKeeps(s: State, t: Token, ok: bool, seen: bool)
    requires Inv(s) && t in s.calls && s.starting.None?
    ensures Inv(RunCall(s, t, FindAnswered(ok, seen)))
  {
    var c := s.calls[t];
    if c.pc.Finding? {
      assert CallOk(s, c);
      if !ok {
        MoveKeeps(s, t, c.(pc := Ending));
      } else if s.prs != [] && seen {
        MoveKeeps(s, t, c.(pc := Found(|s.prs| - 1)));
      } else {
        MoveKeeps(s, t, c.(pc := NoPr, missed := s.prs != []));
      }
    }
  }

  lemma TipKeeps(s: State, t: Token, ok: bool)
    requires Inv(s) && t in s.calls && s.starting.None?
    ensures Inv(RunCall(s, t, TipRead(ok)))
  {
    var c := s.calls[t];
    if c.pc.NoPr? {
      if !ok {
        MoveKeeps(s, t, c.(pc := Ending));
      } else if s.branch.None? {
        MoveKeeps(s, t, c.(pc := Building));
      } else {
        var pusher := Pusher(c.snap.order, c.snap.rows, s.branch.value);
        if pusher.None? || (c.requested.Some? && c.requested != pusher) {
          MoveKeeps(s, t, c.(pc := Ending));
        } else {
          assert pusher.value in s.proposals.rows;
          MoveKeeps(s, t, c.(pc := Creating(pusher.value, s.branch.value)));
        }
      }
    }
  }

  lemma MinorKeeps(s: State, t: Token, step: CallStep)
    requires Inv(s) && t in s.calls && s.starting.None? && (step.Begin? || step.FoundAgain? || step.Abort?)
    ensures Inv(RunCall(s, t, step))
  {
    var c := s.calls[t];
    if step.Begin? {
      if c.pc.Waiting? {
        MoveKeeps(s, t, c.(snap := s.proposals, pc := Finding));
      }
    } else if step.FoundAgain? && step.ok && step.seen && s.prs != [] {
      if c.pc.FindingAgain? {
        MoveKeeps(s, t, c.(pc := Found(|s.prs| - 1)));
      }
    } else if step.Abort? {
      if !c.pc.Leaving? {
        GiveUpKeeps(s, t);
      }
    } else if c.pc.FindingAgain? {
      MoveKeeps(s, t, c.(pc := Ending));
    }
  }

  /** A call ends with its POST, if it sent one, unanswered. */
  lemma GiveUpKeeps(s: State, t: Token)
    requires Inv(s) && t in s.calls && s.starting.None? && !s.calls[t].pc.Leaving?
    ensures Inv(At(s, t, Ending).(pendingCreates := GivenUp(s, s.calls[t])))
  {
    var c := s.calls[t].(pc := Ending);
    MoveKeeps(s, t, c);
    if s.calls[t].pc.Creating? {
      PendingKeeps(Put(s, t, c), t, s.pendingCreates + 1);
    }
  }

  lemma PendingKeeps(s: State, t: Token, pending: nat)
    requires Inv(s) && t in s.calls && s.starting.None? && s.calls[t].pc.Ending? && Matched(s.proposals.rows, s.branch)
    ensures Inv(s.(pendingCreates := pending))
  {
    assert Sole(s.calls, t);
  }

  lemma BuildKeeps(s: State, t: Token, salt: int)
    requires Inv(s) && t in s.calls && s.starting.None?
    ensures Inv(RunCall(s, t, CommitBuilt(salt)))
  {
    var c := s.calls[t];
    if c.pc.Building? {
      var sha := Sha(c.proposal, salt);
      IntentKeeps(s, t, sha);
      var rows := s.proposals.rows[c.proposal := s.proposals.rows[c.proposal].(pushed := Some(sha))];
      var r := s.(proposals := s.proposals.(rows := rows), sentPushes := s.sentPushes + {sha});
      MoveKeeps(r, t, c.(pc := Pushing(sha)));
    }
  }

  lemma IntentKeeps(s: State, t: Token, sha: Sha)
    requires Inv(s) && t in s.calls && s.starting.None? && s.calls[t].pc.Building?
    requires sha.proposal == s.calls[t].proposal
    ensures var rows := s.proposals.rows[sha.proposal := s.proposals.rows[sha.proposal].(pushed := Some(sha))];
            Inv(s.(proposals := s.proposals.(rows := rows), sentPushes := s.sentPushes + {sha}))
  {
    assert Sole(s.calls, t);
  }

  /** The branch appears: a push lands, in time or late. */
  lemma BranchKeeps(s: State, sha: Sha)
    requires Inv(s) && s.branch.None? && sha in s.sentPushes
    ensures Inv(s.(branch := Some(sha), pushes := s.pushes + 1))
  {
    var r := s.(branch := Some(sha), pushes := s.pushes + 1);
    forall t | t in r.calls ensures CallOk(r, r.calls[t]) {
      assert CallOk(s, s.calls[t]);
    }
  }

  lemma PushKeeps(s: State, t: Token, arrived: bool, answered: bool)
    requires Inv(s) && t in s.calls && s.starting.None?
    ensures Inv(RunCall(s, t, PushEnded(arrived, answered)))
  {
    var c := s.calls[t];
    if c.pc.Pushing? {
      var r := s;
      if arrived && s.branch.None? {
        BranchKeeps(s, c.pc.sha);
        r := s.(branch := Some(c.pc.sha), pushes := s.pushes + 1);
      }
      if arrived && answered && r.branch == Some(c.pc.sha) {
        MoveKeeps(r, t, c.(pc := Creating(c.proposal, c.pc.sha)));
      } else {
        MoveKeeps(r, t, c.(pc := Ending));
      }
    }
  }

  lemma OnlyTheNewestIsOpen(s: State)
    requires RemoteOk(s) && s.branch.Some? && !Open(s.prs)
    ensures var prs := s.prs + [Pr(s.branch.value, true)];
            forall i :: 0 <= i < |prs| - 1 ==> !prs[i].open
  {
    forall i | 0 <= i < |s.prs| ensures !s.prs[i].open {
      assert s.prs[i] in s.prs;
    }
  }

  /** A PR appears while no call is past its listing, or none that does not know. */
  lemma AddPrKeeps(s: State)
    requires Inv(s) && Matched(s.proposals.rows, s.branch)
    requires forall t <- s.calls :: s.calls[t].overtaken || s.calls[t].pc.Ending?
    requires forall t <- s.calls :: !s.calls[t].pc.Building? && !s.calls[t].pc.Pushing?
    ensures Inv(AddPr(s))
  {
    if !Open(s.prs) {
      OnlyTheNewestIsOpen(s);
      var r := AddPr(s);
      assert RemoteOk(r) && ProposalsOk(r);
      forall t | t in r.calls ensures CallOk(r, r.calls[t]) {
        assert CallOk(s, s.calls[t]);
      }
    }
  }

  lemma CreatedKeeps(s: State, t: Token)
    requires Inv(s) && t in s.calls && s.starting.None? && s.calls[t].pc.Creating?
    ensures Inv(AddPr(At(s, t, Ending)))
  {
    var c := s.calls[t].(pc := Ending);
    MoveKeeps(s, t, c);
    assert Sole(Put(s, t, c).calls, t);
    AddPrKeeps(Put(s, t, c));
  }

  lemma CreatedAndRecorded(s: State, t: Token)
    requires Inv(s) && t in s.calls && s.starting.None? && s.calls[t].pc.Creating? && !Open(s.prs)
    ensures var r := AddPr(At(s, t, Ending)); var pc := s.calls[t].pc;
            Inv(r) && Inv(Finalize(r, t, pc.owner, |s.prs|, Some(pc.sha), true))
  {
    CreatedKeeps(s, t);
    FinalizeKeeps(AddPr(At(s, t, Ending)), t, s.calls[t].pc.owner, |s.prs|, Some(s.calls[t].pc.sha), true);
  }

  lemma CreateKeeps(s: State, t: Token, arrived: bool, answered: bool)
    requires Inv(s) && t in s.calls && s.starting.None?
    ensures Inv(RunCall(s, t, CreateEnded(arrived, answered)))
  {
    var c := s.calls[t];
    if c.pc.Creating? {
      if !arrived {
        GiveUpKeeps(s, t);
      } else {
        ArrivedKeeps(s, t, answered);
      }
    }
  }

  lemma ArrivedKeeps(s: State, t: Token, answered: bool)
    requires Inv(s) && t in s.calls && s.starting.None? && s.calls[t].pc.Creating?
    ensures Inv(RunCall(s, t, CreateEnded(true, answered)))
  {
    assert CallOk(s, s.calls[t]);
    if Open(s.prs) {
      MoveKeeps(s, t, s.calls[t].(pc := if answered then FindingAgain else Ending));
    } else {
      CreatedAndRecorded(s, t);
    }
  }

  lemma CommitsKeep(s: State, t: Token, ok: bool, commits: seq<Commit>)
    requires Inv(s) && t in s.calls && s.starting.None?
    ensures Inv(RunCall(s, t, CommitsRead(ok, commits)))
  {
    var c := s.calls[t];
    if c.pc.Found? {
      assert CallOk(s, c);
      if !ok {
        MoveKeeps(s, t, c.(pc := Ending));
      } else if Listing(s.prs[c.pc.pr].head, commits) {
        ListedKeeps(s, t, commits);
      }
    }
  }

  lemma ListedKeeps(s: State, t: Token, commits: seq<Commit>)
    requires Inv(s) && t in s.calls && s.starting.None? && s.calls[t].pc.Found? && s.calls[t].pc.pr < |s.prs|
    requires Listing(s.prs[s.calls[t].pc.pr].head, commits)
    ensures Inv(RunCall(s, t, CommitsRead(true, commits)))
  {
    var c := s.calls[t];
    assert CallOk(s, c);
    HeadIsTheBranch(s, c);
    OwnerIsTheAuthor(c.snap, s.prs[c.pc.pr].head, commits);
    FinalizeKeeps(s, t, s.branch.value.proposal, c.pc.pr, None, false);
  }

  lemma HeadIsTheBranch(s: State, c: Call)
    requires RemoteOk(s) && CallOk(s, c) && c.pc.Found?
    ensures s.branch == Some(s.prs[c.pc.pr].head) && s.branch.value.proposal in c.snap.rows && NamesItself(c.snap.rows)
  {
    assert s.prs[c.pc.pr] in s.prs;
  }

  lemma ReleaseKeeps(s: State, t: Token, ok: bool)
    requires Inv(s) && t in s.calls && s.starting.None?
    ensures Inv(RunCall(s, t, Release(ok)))
  {
    if s.calls[t].pc.Ending? {
      MoveKeeps(s, t, s.calls[t].(pc := Leaving));
      ReleaseClaimKeeps(At(s, t, Leaving), t);
    }
  }

  lemma ReleaseClaimKeeps(s: State, t: Token)
    requires Inv(s) && t in s.calls && s.starting.None? && s.calls[t].pc.Leaving?
    ensures Inv(ReleaseClaim(s, t))
  {
    ReleaseClaimTokens(s, t);
    var r := ReleaseClaim(s, t);
    assert r == s.(status := r.status, token := r.token, released := r.released);
  }

  lemma ReleaseClaimTokens(s: State, t: Token)
    requires TokensOk(s) && RequestsOk(s) && t in s.used && s.starting.None? && t in s.calls && s.calls[t].pc.Leaving?
    ensures TokensOk(ReleaseClaim(s, t)) && RequestsOk(ReleaseClaim(s, t))
  {
  }

  lemma LeaveKeeps(s: State, t: Token)
    requires Inv(s) && t in s.calls && s.starting.None?
    ensures Inv(RunCall(s, t, Leave))
  {
    assert Sole(s.calls, t);
  }

  lemma CallStepKeeps(s: State, t: Token, step: CallStep)
    requires Inv(s) && t in s.calls && s.starting.None?
    ensures Inv(RunCall(s, t, step))
  {
    match step
    case FindAnswered(ok, seen) => FindKeeps(s, t, ok, seen);
    case TipRead(ok) => TipKeeps(s, t, ok);
    case CommitBuilt(salt) => BuildKeeps(s, t, salt);
    case PushEnded(arrived, answered) => PushKeeps(s, t, arrived, answered);
    case CreateEnded(arrived, answered) => CreateKeeps(s, t, arrived, answered);
    case CommitsRead(ok, commits) => CommitsKeep(s, t, ok, commits);
    case Release(ok) => ReleaseKeeps(s, t, ok);
    case Leave => LeaveKeeps(s, t);
    case _ => MinorKeeps(s, t, step);
  }

  // ---------------------------------------------------------- the other steps

  lemma CheckKeeps(s: State, token: Token, requested: Option<Pid>, configured: bool)
    requires Inv(s) && s.starting.None? && token !in s.used
    ensures Inv(CheckOpen(s, token, requested, configured))
  {
    var r := CheckOpen(s, token, requested, configured);
    if r.starting.Some? {
      StartingKeeps(s, r.starting.value);
    } else if r.replies != s.replies {
      var recorded := Recorded(s.proposals).value;
      var reply := Reply(requested, recorded, s.proposals.rows[recorded].pr.value, false);
      ReplyKeeps(s, reply);
      assert r == s.(replies := s.replies + [reply]);
    } else {
      assert r == s;
    }
  }

  lemma StartingKeeps(s: State, start: Start)
    requires Inv(s) && s.starting.None? && s.active.None? && start.token !in s.used && !start.claimed
    requires start.proposal in s.proposals.rows && (start.requested.Some? ==> start.requested == Some(start.proposal))
    ensures Inv(s.(starting := Some(start), used := s.used + {start.token}))
  {
    StartingTokens(s, start);
    var r := s.(starting := Some(start), used := s.used + {start.token});
    assert ProposalsOk(r) && RemoteOk(r) && RepliesOk(r);
  }

  lemma StartingTokens(s: State, start: Start)
    requires CallsOk(s) && TokensOk(s) && RequestsOk(s)
    requires s.starting.None? && s.active.None? && start.token !in s.used
    requires !start.claimed && start.proposal in s.proposals.rows
    ensures var r := s.(starting := Some(start), used := s.used + {start.token});
            CallsOk(r) && TokensOk(r) && RequestsOk(r)
  {
    var r := s.(starting := Some(start), used := s.used + {start.token});
    assert forall t :: Settled(s.used, s.starting, t) ==> Settled(r.used, r.starting, t);
  }

  lemma ClaimKeeps(s: State)
    requires Inv(s) && s.starting.Some? && !s.starting.value.claimed
    ensures Inv(Claim(s))
  {
    if Claim(s).starting.None? {
      assert Inv(s.(starting := None));
    } else {
      ClaimTokens(s);
      ClaimCalls(s);
      ClaimRequests(s);
      ClaimRest(s);
    }
  }

  lemma ClaimRest(s: State)
    requires ProposalsOk(s) && RemoteOk(s) && RepliesOk(s) && s.starting.Some?
    ensures ProposalsOk(Claim(s)) && RemoteOk(Claim(s)) && RepliesOk(Claim(s))
  {
  }

  lemma ClaimTokens(s: State)
    requires CallsOk(s) && TokensOk(s) && s.starting.Some? && !s.starting.value.claimed
    ensures TokensOk(Claim(s))
  {
    var r := Claim(s);
    forall t | t in r.released
      ensures Settled(r.used, r.starting, t) && !Holds(r, t) && (t in r.calls ==> r.calls[t].pc.Leaving?)
    {
      assert t in s.released && t != s.starting.value.token;
    }
  }

  lemma ClaimRequests(s: State)
    requires CallsOk(s) && RequestsOk(s) && s.starting.Some? && !s.starting.value.claimed
    ensures RequestsOk(Claim(s))
  {
    var r := Claim(s);
    assert r.deletes == s.deletes && r.patches == s.patches && r.used == s.used;
  }

  lemma ClaimCalls(s: State)
    requires CallsOk(s) && s.starting.Some? && !s.starting.value.claimed && StartFits(s.proposals.rows, s.starting)
    ensures var r := Claim(s);
            && CallsOk(r) && CallsFitRemote(r)
            && StartFits(r.proposals.rows, r.starting)
  {
    var r := Claim(s);
    assert forall t <- r.calls :: t == s.starting.value.token;
  }

  lemma RegisterKeeps(s: State)
    requires Inv(s)
    ensures Inv(Next(s, Register))
  {
  }

  lemma StatusKeeps(s: State, status: Status, deleted: bool)
    requires Inv(s) && !status.FixApproved?
    ensures Inv(s.(status := status, deleted := deleted))
  {
  }

  lemma RequestsKeep(s: State, deletes: map<int, Delete>, patches: map<int, Patch>)
    requires Inv(s)
    requires RequestsOk(s.(deletes := deletes, patches := patches))
    ensures Inv(s.(deletes := deletes, patches := patches))
  {
  }

  lemma OneDelete(s: State, d: int, x: Delete)
    requires Inv(s)
    requires x.token.Some? ==> Settled(s.used, s.starting, x.token.value)
    requires x.passed && x.token.Some? && x.token.value in s.calls ==> x.early
    ensures Inv(s.(deletes := s.deletes[d := x]))
  {
    RequestsKeep(s, s.deletes[d := x], s.patches);
  }

  lemma DeleteChecks(s: State, d: int)
    requires Inv(s)
    ensures Inv(Next(s, DeleteCheck(d)))
  {
    if d !in s.deletes || s.active.Some? {
      RequestsKeep(s, s.deletes - {d}, s.patches);
    } else {
      OneDelete(s, d, Next(s, DeleteCheck(d)).deletes[d]);
    }
  }

  lemma DeleteWriteKeeps(s: State, d: int)
    requires Inv(s)
    ensures Inv(Next(s, DeleteWrite(d)))
  {
    RequestsKeep(s, s.deletes - {d}, s.patches);
    StatusKeeps(s.(deletes := s.deletes - {d}), Rejected, true);
  }

  lemma PatchReadKeeps(s: State, p: int, target: Status, reason: Option<bool>)
    requires Inv(s)
    ensures Inv(Next(s, PatchRead(p, target, reason)))
  {
    if p !in s.patches && PatchAccepts(s.status, target) {
      ClaimIsClosedToThePublic(s.status);
      ClaimIsClosedToThePublic(target);
      RequestsKeep(s, s.deletes, s.patches[p := Patch(s.status, target, reason)]);
    }
  }

  lemma PatchWriteKeeps(s: State, p: int)
    requires Inv(s)
    ensures Inv(Next(s, PatchWrite(p)))
  {
    if p in s.patches {
      RequestsKeep(s, s.deletes, s.patches - {p});
      if s.status == s.patches[p].from {
        StatusKeeps(s.(patches := s.patches - {p}), s.patches[p].to, Reason(s.deleted, s.patches[p].reason));
      }
    }
  }

  lemma ProposalKeeps(s: State, id: Pid)
    requires Inv(s)
    ensures Inv(Next(s, ProposalAdded(id)))
  {
    if id !in s.proposals.rows {
      NewProposal(s, id);
    }
  }

  lemma NewProposal(s: State, id: Pid)
    requires ProposalsOk(s) && RemoteOk(s) && RepliesOk(s) && id !in s.proposals.rows
    ensures var r := Next(s, ProposalAdded(id));
            ProposalsOk(r) && RemoteOk(r) && RepliesOk(r)
  {
  }

  lemma CloseKeeps(s: State, pr: nat)
    requires Inv(s)
    ensures Inv(Next(s, PrClosed(pr)))
  {
    if pr < |s.prs| {
      assert s.prs[pr] in s.prs;
      var r := Next(s, PrClosed(pr));
      assert forall q <- r.prs :: q in s.prs || q == r.prs[pr];
      assert RemoteOk(r);
      forall t | t in r.calls ensures CallOk(r, r.calls[t]) {
        assert CallOk(s, s.calls[t]);
      }
    }
  }

  lemma LatePushKeeps(s: State, sha: Sha)
    requires Inv(s)
    ensures Inv(Next(s, LatePush(sha)))
  {
    if sha in s.sentPushes && s.branch.None? {
      BranchKeeps(s, sha);
    }
  }

  lemma FewerPendingKeeps(s: State)
    requires Inv(s) && s.pendingCreates > 0
    ensures Inv(s.(pendingCreates := s.pendingCreates - 1))
  {
    var r := s.(pendingCreates := s.pendingCreates - 1);
    forall t | t in r.calls ensures CallOk(r, r.calls[t]) {
      assert CallOk(s, s.calls[t]);
    }
  }

  lemma OvertakenKeeps(s: State)
    requires Inv(s)
    ensures Inv(s.(calls := map t | t in s.calls :: s.calls[t].(overtaken := true)))
  {
    var r := s.(calls := map t | t in s.calls :: s.calls[t].(overtaken := true));
    forall t | t in r.calls ensures CallOk(r, r.calls[t]) {
      assert CallOk(s, s.calls[t]);
    }
  }

  lemma LateCreateKeeps(s: State)
    requires Inv(s)
    ensures Inv(Next(s, LateCreate))
  {
    if s.pendingCreates > 0 {
      FewerPendingKeeps(s);
      if s.branch.Some? && !Open(s.prs) {
        NoneIsBuilding(s);
        LandedKeeps(s.(pendingCreates := s.pendingCreates - 1));
      }
    }
  }

  lemma LandedKeeps(s: State)
    requires Inv(s) && Matched(s.proposals.rows, s.branch) && !Open(s.prs)
    requires forall t <- s.calls :: !s.calls[t].pc.Building? && !s.calls[t].pc.Pushing?
    ensures Inv(AddPr(s).(calls := map t | t in s.calls :: s.calls[t].(overtaken := true)))
  {
    OvertakenKeeps(s);
    AddPrKeeps(s.(calls := map t | t in s.calls :: s.calls[t].(overtaken := true)));
  }

  lemma NoneIsBuilding(s: State)
    requires Inv(s) && s.pendingCreates > 0
    ensures forall t <- s.calls :: !s.calls[t].pc.Building? && !s.calls[t].pc.Pushing?
  {
    forall t | t in s.calls ensures !s.calls[t].pc.Building? && !s.calls[t].pc.Pushing? {
      assert CallOk(s, s.calls[t]);
    }
  }

  lemma CrashKeeps(s: State)
    requires Inv(s)
    ensures Inv(Next(s, Crash))
  {
    var r := Next(s, Crash);
    if r.pendingCreates > s.pendingCreates {
      var t :| t in s.calls && s.calls[t].pc.Creating?;
      assert CallOk(s, s.calls[t]);
    }
    assert RemoteOk(r) && ProposalsOk(r) && RepliesOk(r);
  }

  lemma StepKeeps(s: State, e: Event)
    requires Inv(s)
    ensures Inv(Next(s, e))
  {
    match e
    case Check(token, requested, configured) =>
      if s.starting.None? && token !in s.used { CheckKeeps(s, token, requested, configured); }
    case ClaimCas => if s.starting.Some? && !s.starting.value.claimed { ClaimKeeps(s); }
    case Register => RegisterKeeps(s);
    case On(t, step) => if t in s.calls && s.starting.None? { CallStepKeeps(s, t, step); }
    case DeleteRead(d) =>
      if d !in s.deletes && !s.deleted { OneDelete(s, d, Delete(s.status, s.token, false, false)); }
    case DeleteCheck(d) => DeleteChecks(s, d);
    case DeleteWrite(d) => DeleteWriteKeeps(s, d);
    case PatchRead(p, target, reason) => PatchReadKeeps(s, p, target, reason);
    case PatchWrite(p) => PatchWriteKeeps(s, p);
    case StatusWritten(status, reason) =>
      if !status.FixApproved? { StatusKeeps(s, status, Reason(s.deleted, reason)); }
    case ProposalAdded(id) => ProposalKeeps(s, id);
    case PrClosed(pr) => CloseKeeps(s, pr);
    case LatePush(sha) => LatePushKeeps(s, sha);
    case LateCreate => LateCreateKeeps(s);
    case Crash => CrashKeeps(s);
  }

  lemma {:induction false} RunKeeps(s: State, events: seq<Event>)
    requires Inv(s)
    ensures Inv(Run(s, events))
    decreases |events|
  {
    if events != [] {
      RunKeeps(s, events[..|events| - 1]);
      StepKeeps(Run(s, events[..|events| - 1]), events[|events| - 1]);
    }
  }

  lemma ReachableKeeps(s: State)
    requires Reachable(s)
    ensures Inv(s)
  {
    var s0: State, events: seq<Event> :| Initial(s0) && s == Run(s0, events);
    RunKeeps(s0, events);
  }
}
