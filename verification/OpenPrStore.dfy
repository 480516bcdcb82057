/** The open-pr writers and the parts of a call that loop or branch over what
    they read, written as the code is and proved to be the machine's steps. */
module OpenPrStore {
  import opened Common
  import opened Workflow
  import opened OpenPr

  /** `next(p for p in proposals if p.pushed_sha == tip)`. */
  method FindPusher(ps: Proposals, tip: Sha) returns (pusher: Option<Pid>)
    ensures pusher == Pusher(ps.order, ps.rows, tip)
  {
    var i := 0;
    while i < |ps.order|
      invariant 0 <= i <= |ps.order|
      invariant Pusher(ps.order, ps.rows, tip) == Pusher(ps.order[i..], ps.rows, tip)
    {
      var p := ps.order[i];
      if p in ps.rows && ps.rows[p].pushed == Some(tip) {
        return Some(p);
      }
      i := i + 1;
    }
    return None;
  }

  /** The proposals whose recorded intent is one of the commits, and one of them. */
  method CollectByIntent(ps: Proposals, shas: set<Sha>) returns (found: set<Pid>, first: Option<Pid>)
    requires forall p :: p in ps.order <==> p in ps.rows
    ensures found == ByIntent(ps, shas)
    ensures found != {} ==> first.Some? && first.value in found
  {
    found, first := {}, None;
    for i := 0 to |ps.order|
      invariant found ==
                set p | p in ps.order[..i] && p in ps.rows && ps.rows[p].pushed.Some? && ps.rows[p].pushed.value in shas
      invariant if first.Some? then first.value in found else found == {}
    {
      var p := ps.order[i];
      assert ps.order[..i + 1] == ps.order[..i] + [p];
      if ps.rows[p].pushed.Some? && ps.rows[p].pushed.value in shas {
        found, first := found + {p}, if first.Some? then first else Some(p);
      }
    }
    assert ps.order[..|ps.order|] == ps.order;
  }

  /** `_resolve_owner`. */
  method FindOwner(ps: Proposals, head: Sha, commits: seq<Commit>) returns (owner: Option<Pid>)
    requires forall p :: p in ps.order <==> p in ps.rows
    ensures owner == ResolveOwner(ps, head, commits)
  {
    var found, first := CollectByIntent(ps, Shas(commits) + {head});
    if |found| == 1 {
      Only(found, first.value);
      return first;
    }
    var i := 0;
    while i < |commits|
      invariant 0 <= i <= |commits|
      invariant ByTrailer(ps, commits) == ByTrailer(ps, commits[i..])
    {
      if commits[i].Ours? && commits[i].sha.proposal in ps.rows {
        return Some(commits[i].sha.proposal);
      }
      i := i + 1;
    }
    return None;
  }

  lemma Only(found: set<Pid>, p: Pid)
    requires |found| == 1 && p in found
    ensures forall q <- found :: q == p
  {
    assert |found - {p}| == 0;
    forall q | q in found ensures q == p {
      assert q != p ==> q in found - {p};
    }
  }

  /** One report's rows, its entry in `_active_claims` and its calls; `world`
      is the rest of the machine: the remote, the requests of other routes,
      and what an observer counts. */
  class Report {
    var status: Status
    var token: Option<Token>
    var deleted: bool
    var proposals: Proposals
    var active: Option<Token>
    var starting: Option<Start>
    var calls: map<Token, Call>
    ghost var world: State

    ghost function Machine(): State
      reads this
    {
      world.(status := status, token := token, deleted := deleted, proposals := proposals,
             active := active, starting := starting, calls := calls)
    }

    /** `open_pull_request` up to the claim: answers at once, refuses, or goes on to claim. */
    method Checks(t: Token, requested: Option<Pid>, configured: bool) returns (answered: Option<Pid>)
      requires starting.None? && t !in world.used
      modifies this`starting, this`world
      ensures Machine() == Next(old(Machine()), Check(t, requested, configured))
      ensures answered.Some? ==> answered == Recorded(proposals) && (requested.None? || requested == answered)
    {
      answered := None;
      if requested.Some? && requested.value !in proposals.rows {
        return;
      }
      var recorded := Recorded(proposals);
      if recorded.Some? {
        if requested.None? || requested == recorded {
          answered := recorded;
          var pr := proposals.rows[recorded.value].pr.value;
          world := world.(replies := world.replies + [Reply(requested, recorded.value, pr, false)]);
        }
        return;
      }
      if proposals.order == [] || active.Some? || (!status.FixProposed? && !status.FixApproved?) || !configured {
        return;
      }
      var proposal := proposals.order[0];
      if requested.Some? {
        proposal := requested.value;
      }
      starting := Some(Start(t, requested, proposal, status, token, false));
      world := world.(used := world.used + {t});
    }

    /** `try_claim_report`: compare-and-set on `fix_proposed`. */
    method TryClaim(t: Token) returns (won: bool)
      modifies this`status, this`token
      ensures won <==> old(status).FixProposed?
      ensures if won then status == FixApproved && token == Some(t) else status == old(status) && token == old(token)
    {
      won := status.FixProposed?;
      if won {
        status, token := FixApproved, Some(t);
      }
    }

    /** `adopt_claim`: compare-and-set on the token that was observed. */
    method AdoptClaim(observed: Option<Token>, t: Token) returns (won: bool)
      modifies this`token
      ensures won <==> status.FixApproved? && old(token) == observed
      ensures token == if won then Some(t) else old(token)
    {
      won := status.FixApproved? && token == observed;
      if won {
        token := Some(t);
      }
    }

    method TakeClaim() returns (won: bool)
      requires starting.Some? && !starting.value.claimed
      modifies this
      ensures Machine() == Next(old(Machine()), ClaimCas)
      ensures won <==> starting.Some?
    {
      var b := starting.value;
      if b.status.FixApproved? {
        won := AdoptClaim(b.observed, b.token);
      } else {
        won := TryClaim(b.token);
      }
      if won {
        starting := Some(b.(claimed := true));
        calls := calls[b.token := NewCall(b)];
      } else {
        starting := None;
      }
    }

    /** `release_claim`: compare-and-set on the owner's token. */
    method ReleaseToken(t: Token) returns (won: bool)
      modifies this`status, this`token, this`world
      ensures Machine() == ReleaseClaim(old(Machine()), t)
      ensures won <==> old(Holds(Machine(), t))
    {
      world := world.(released := world.released + {t});
      won := status.FixApproved? && token == Some(t);
      if won {
        status, token := FixProposed, None;
      }
    }

    /** `record_pull_request`: the proposal, then the report on its token, or nothing. */
    method RecordPullRequest(t: Token, owner: Pid, pr: nat, pushed: Option<Sha>) returns (won: bool)
      modifies this`status, this`token, this`proposals
      ensures won <==> owner in old(proposals).rows && old(Holds(Machine(), t))
      ensures !won ==> status == old(status) && token == old(token) && proposals == old(proposals)
      ensures won ==> status == FixCommitted && token == None
      ensures won ==>
                var row := Proposal(if pushed.Some? then pushed else old(proposals).rows[owner].pushed, Some(pr));
                proposals == old(proposals).(rows := old(proposals).rows[owner := row])
    {
      if owner !in proposals.rows {
        return false;
      }
      var before := proposals;
      var row := proposals.rows[owner];
      var recorded := Proposal(if pushed.Some? then pushed else row.pushed, Some(pr));
      proposals := proposals.(rows := proposals.rows[owner := recorded]);
      if !status.FixApproved? || token != Some(t) {
        proposals := before;
        return false;
      }
      status, token := FixCommitted, None;
      return true;
    }

    /** `_record` and the answer made of it. */
    method Record(t: Token, owner: Pid, pr: nat, pushed: Option<Sha>, created: bool) returns (answered: bool)
      requires t in calls
      modifies this
      ensures Machine() == Finalize(old(Machine()), t, owner, pr, pushed, created)
      ensures answered ==> calls[t].requested.None? || calls[t].requested == Some(owner)
    {
      var won := RecordPullRequest(t, owner, pr, pushed);
      answered := false;
      if !won {
        calls := calls[t := calls[t].(pc := Ending)];
        return;
      }
      calls := calls[t := calls[t].(pc := Ending, finalized := true)];
      if calls[t].requested.None? || calls[t].requested.value == owner {
        answered := true;
        world := world.(replies := world.replies + [Reply(calls[t].requested, owner, pr, created)]);
      }
    }

    /** `_record_existing_pr`, once the PR's commits are read. */
    method RecordExistingPr(t: Token, pr: nat, head: Sha, commits: seq<Commit>)
      requires t in calls && calls[t].pc == Found(pr) && starting.None?
      requires pr < |world.prs| && world.prs[pr].head == head && Listing(head, commits)
      requires forall p :: p in calls[t].snap.order <==> p in calls[t].snap.rows
      modifies this
      ensures Machine() == Next(old(Machine()), On(t, CommitsRead(true, commits)))
    {
      var c := calls[t];
      var owner := FindOwner(c.snap, head, commits);
      if owner.None? {
        owner := c.requested;
      }
      if owner.None? {
        calls := calls[t := c.(pc := Ending)];
        return;
      }
      var _ := Record(t, owner.value, pr, None, false);
    }

    /** What the branch's tip decides: build, resume at the PR, or stop. */
    method BranchTip(t: Token, tip: Option<Sha>)
      requires t in calls && calls[t].pc.NoPr? && starting.None? && tip == world.branch
      modifies this`calls
      ensures Machine() == Next(old(Machine()), On(t, TipRead(true)))
    {
      var c := calls[t];
      var pc := Building;
      if tip.Some? {
        var pusher := FindPusher(c.snap, tip.value);
        if pusher.None? || (c.requested.Some? && c.requested != pusher) {
          pc := Ending;
        } else {
          pc := Creating(pusher.value, tip.value);
        }
      }
      calls := calls[t := c.(pc := pc)];
    }

    /** The commit is built: its sha is recorded before it is pushed. */
    method RecordIntent(t: Token, salt: int)
      requires t in calls && calls[t].pc.Building? && starting.None? && calls[t].proposal in proposals.rows
      modifies this`calls, this`proposals, this`world
      ensures Machine() == Next(old(Machine()), On(t, CommitBuilt(salt)))
    {
      var c := calls[t];
      var sha := Sha(c.proposal, salt);
      proposals := proposals.(rows := proposals.rows[c.proposal := proposals.rows[c.proposal].(pushed := Some(sha))]);
      calls := calls[t := c.(pc := Pushing(sha))];
      world := world.(sentPushes := world.sentPushes + {sha});
    }

    /** The call's exit: release what was not finalized, then unregister. */
    method Exit(t: Token, releaseWorks: bool)
      requires t in calls && calls[t].pc.Ending? && starting.None?
      modifies this
      ensures Machine() == Next(Next(old(Machine()), On(t, Release(releaseWorks))), On(t, Leave))
    {
      ReleaseUnfinalized(t, releaseWorks);
      Unregister(t);
    }

    method ReleaseUnfinalized(t: Token, releaseWorks: bool)
      requires t in calls && calls[t].pc.Ending? && starting.None?
      modifies this
      ensures Machine() == Next(old(Machine()), On(t, Release(releaseWorks)))
      ensures t in calls && calls[t].pc.Leaving? && starting.None?
    {
      var c := calls[t];
      calls := calls[t := c.(pc := Leaving)];
      if !c.finalized && releaseWorks {
        var _ := ReleaseToken(t);
      }
    }

    method Unregister(t: Token)
      requires t in calls && calls[t].pc.Leaving? && starting.None?
      modifies this
      ensures Machine() == Next(old(Machine()), On(t, Leave))
    {
      calls := calls - {t};
      if active == Some(t) {
        active := None;
      }
    }

    /** `report_delete`: compare-and-set on the status and token the DELETE
        request `d` checked, of a row not yet deleted. */
    method DeleteReport(ghost d: int, expected: Status, expectedToken: Option<Token>) returns (done: bool)
      requires d in world.deletes && world.deletes[d].passed
      requires world.deletes[d].status == expected && world.deletes[d].token == expectedToken
      modifies this`status, this`deleted, this`world
      ensures Machine() == Next(old(Machine()), DeleteWrite(d))
      ensures done <==> !old(deleted) && old(status) == expected && token == expectedToken
    {
      done := !deleted && status == expected && token == expectedToken;
      if done {
        status, deleted := Rejected, true;
      }
      world := world.(deletes := world.deletes - {d});
    }

    /** `report_update_status` with `expected_status`: the write of the PATCH request `p`. */
    method UpdateStatus(ghost p: int, expected: Status, target: Status, reason: Option<bool>) returns (done: bool)
      requires p in world.patches && world.patches[p] == Patch(expected, target, reason)
      modifies this`status, this`deleted, this`world
      ensures Machine() == Next(old(Machine()), PatchWrite(p))
      ensures done <==> old(status) == expected
    {
      done := status == expected;
      if done {
        status := target;
        if reason.Some? {
          deleted := reason.value;
        }
      }
      world := world.(patches := world.patches - {p});
    }
  }
}
