/** What a 200 or 201 answer of open-pr says about the report's recorded PR. */
module OpenPrAnswer {
  import opened Common

  type Pid = string

  /** A PR is recorded, and on the requested proposal if one was named. */
  predicate Answers(recorded: Option<Pid>, requested: Option<Pid>) {
    recorded.Some? && (requested.None? || requested == recorded)
  }
}

/** The open-pr claim protocol of one report (git_ops/pull_request.py and the
    claim functions of db.py) as a machine over its steps.

    A call runs on the event loop; its steps are what happens between two
    awaits. The stretch from its checks to its registration has no await, but
    the PATCH and DELETE routes run in threads beside the loop, so it is split
    where they can see or change something: the checks, which take the row's
    status and token in one read and nothing else those routes write; the
    compare-and-set; and the registration. Every network request may be lost
    before or after it took effect, or take effect long after it was given up
    (`LatePush`, `LateCreate`), and the process may die at any step. */
module OpenPr {
  import opened Common
  import opened Workflow
  import OpenPrAnswer

  type Pid = OpenPrAnswer.Pid
  type Token = string

  /** A commit, identified by its content, which names the proposal it
      implements; `salt` is the rest (parent, dates). */
  datatype Sha = Sha(proposal: Pid, salt: int)

  datatype Pr = Pr(head: Sha, open: bool)

  /** A commit of a PR's listing; `Foreign` names no proposal of the report. */
  datatype Commit = Ours(sha: Sha) | Foreign(id: int)

  /** A `fix_proposals` row: the recorded push intent, and the recorded PR. */
  datatype Proposal = Proposal(pushed: Option<Sha>, pr: Option<nat>)

  /** The report's proposals, newest first. */
  datatype Proposals = Proposals(order: seq<Pid>, rows: map<Pid, Proposal>)

  datatype Pc =
    | Waiting                            // registered, waiting for the project lock
    | Finding                            // looking the PR up
    | NoPr                               // none found: reading the branch's tip
    | Building                           // the branch is absent: building the commit
    | Pushing(sha: Sha)                  // the intent is recorded
    | Creating(owner: Pid, sha: Sha)
    | FindingAgain                       // the remote said the PR exists
    | Found(pr: nat)                     // reading its commits
    | Ending                             // returned or raised: release what is not finalized
    | Leaving                            // unregister

  /** A live call. `missed`: its listing answered "none" while a PR existed;
      `overtaken`: a PR that another call had asked for appeared since. */
  datatype Call = Call(
    requested: Option<Pid>,
    proposal: Pid,
    snap: Proposals,
    pc: Pc,
    finalized: bool,
    missed: bool,
    overtaken: bool)

  /** A call between its checks and its registration. */
  datatype Start = Start(
    token: Token,
    requested: Option<Pid>,
    proposal: Pid,
    status: Status,
    observed: Option<Token>,
    claimed: bool)

  /** A DELETE between its read and its write. `early`: it checked for a
      running call after that call's claim and before its registration. */
  datatype Delete = Delete(status: Status, token: Option<Token>, passed: bool, early: bool)

  /** A PATCH that validated `from -> to`. A resolution reason, when it gives
      one, matters only by whether it is the word that marks a deletion. */
  datatype Patch = Patch(from: Status, to: Status, reason: Option<bool>)

  /** A 200 or 201 answer. */
  datatype Reply = Reply(requested: Option<Pid>, proposal: Pid, pr: nat, created: bool)

  datatype State = State(
    status: Status,
    token: Option<Token>,
    deleted: bool,                  // the resolution reason marks a deletion
    proposals: Proposals,
    active: Option<Token>,          // `_active_claims`
    starting: Option<Start>,
    calls: map<Token, Call>,
    deletes: map<int, Delete>,
    patches: map<int, Patch>,
    branch: Option<Sha>,            // the remote
    prs: seq<Pr>,
    sentPushes: set<Sha>,           // pushes ever started: any may land late
    pendingCreates: nat,            // creations given up that may still land
    pushes: nat,                    // pushes that changed the branch
    used: set<Token>,               // tokens drawn so far
    released: set<Token>,           // tokens whose release write succeeded
    replies: seq<Reply>)

  datatype Event =
    | Check(token: Token, requested: Option<Pid>, configured: bool)
    | ClaimCas
    | Register
    | On(call: Token, step: CallStep)
    | DeleteRead(request: int)
    | DeleteCheck(request: int)
    | DeleteWrite(request: int)
    | PatchRead(request: int, target: Status, reason: Option<bool>)
    | PatchWrite(request: int)
    | StatusWritten(status: Status, reason: Option<bool>)   // a pipeline stage; none writes `fix_approved`
    | ProposalAdded(id: Pid)
    | PrClosed(pr: nat)
    | LatePush(sha: Sha)
    | LateCreate
    | Crash

  datatype CallStep =
    | Begin
    | FindAnswered(ok: bool, seen: bool)
    | TipRead(ok: bool)
    | CommitBuilt(salt: int)
    | PushEnded(arrived: bool, answered: bool)
    | CreateEnded(arrived: bool, answered: bool)
    | FoundAgain(ok: bool, seen: bool)
    | CommitsRead(ok: bool, commits: seq<Commit>)
    | Abort                              // any exception or cancellation
    | Release(ok: bool)
    | Leave

  // -------------------------------------------------------------- proposals

  /** The first proposal of a list with a recorded PR. */
  function FirstRecorded(order: seq<Pid>, rows: map<Pid, Proposal>): (p: Option<Pid>)
    ensures p.Some? ==> p.value in order && p.value in rows && rows[p.value].pr.Some?
    ensures p.None? ==> forall q <- order :: q in rows ==> rows[q].pr.None?
  {
    if order == [] then None
    else if order[0] in rows && rows[order[0]].pr.Some? then Some(order[0])
    else FirstRecorded(order[1..], rows)
  }

  function Recorded(ps: Proposals): Option<Pid> {
    FirstRecorded(ps.order, ps.rows)
  }

  /** The first proposal whose push intent is the branch's tip. */
  function Pusher(order: seq<Pid>, rows: map<Pid, Proposal>, tip: Sha): (p: Option<Pid>)
    ensures p.Some? ==> p.value in order && p.value in rows && rows[p.value].pushed == Some(tip)
    ensures p.None? ==> forall q <- order :: q in rows ==> rows[q].pushed != Some(tip)
  {
    if order == [] then None
    else if order[0] in rows && rows[order[0]].pushed == Some(tip) then Some(order[0])
    else Pusher(order[1..], rows, tip)
  }

  function ByIntent(ps: Proposals, shas: set<Sha>): set<Pid> {
    set p | p in ps.rows && ps.rows[p].pushed.Some? && ps.rows[p].pushed.value in shas
  }

  /** The first commit whose trailers name one of the proposals. */
  function ByTrailer(ps: Proposals, commits: seq<Commit>): Option<Pid> {
    if commits == [] then None
    else if commits[0].Ours? && commits[0].sha.proposal in ps.rows then Some(commits[0].sha.proposal)
    else ByTrailer(ps, commits[1..])
  }

  function Shas(commits: seq<Commit>): set<Sha> {
    set c | c in commits && c.Ours? :: c.sha
  }

  /** `_resolve_owner`: the one recorded intent among the commits, else a trailer. */
  ghost function ResolveOwner(ps: Proposals, head: Sha, commits: seq<Commit>): Option<Pid> {
    var byIntent := ByIntent(ps, Shas(commits) + {head});
    if |byIntent| == 1 then var p :| p in byIntent; Some(p) else ByTrailer(ps, commits)
  }

  /** A PR's listing has its head; any other commit in it is not Bugalizer's,
      whose branch is pushed once. */
  predicate Listing(head: Sha, commits: seq<Commit>) {
    Ours(head) in commits && forall c <- commits :: c.Ours? ==> c.sha == head
  }

  // ------------------------------------------------------------------ steps

  function Put(s: State, t: Token, c: Call): State {
    s.(calls := s.calls[t := c])
  }

  function At(s: State, t: Token, pc: Pc): State
    requires t in s.calls
  {
    Put(s, t, s.calls[t].(pc := pc))
  }

  predicate Holds(s: State, t: Token) {
    s.status.FixApproved? && s.token == Some(t)
  }

  /** `open_pull_request` up to the claim: nothing is written. `configured`:
      the GitHub token, slug, clone, branch name and ids are all in order. */
  function CheckOpen(s: State, token: Token, requested: Option<Pid>, configured: bool): State {
    var recorded := Recorded(s.proposals);
    if requested.Some? && requested.value !in s.proposals.rows then s
    else if recorded.Some? then
      if requested.Some? && requested != recorded then s
      else
        var pr := s.proposals.rows[recorded.value].pr.value;
        s.(replies := s.replies + [Reply(requested, recorded.value, pr, false)])
    else if s.proposals.order == [] then s
    else if s.active.Some? then s
    else if !s.status.FixProposed? && !s.status.FixApproved? then s
    else if !configured then s
    else
      var proposal := if requested.Some? then requested.value else s.proposals.order[0];
      s.(starting := Some(Start(token, requested, proposal, s.status, s.token, false)), used := s.used + {token})
  }

  function NewCall(b: Start): Call {
    Call(b.requested, b.proposal, Proposals([], map[]), Waiting, false, false, false)
  }

  /** The claim: `fix_proposed -> fix_approved`, or the adoption of the token it observed. */
  function Claim(s: State): State
    requires s.starting.Some?
  {
    var b := s.starting.value;
    var won := if b.status.FixApproved? then s.status.FixApproved? && s.token == b.observed else s.status.FixProposed?;
    if !won then s.(starting := None)
    else s.(status := FixApproved, token := Some(b.token), starting := Some(b.(claimed := true)),
            calls := s.calls[b.token := NewCall(b)])
  }

  /** `_record`: the finalizing transaction, and the answer when the caller may have it. */
  function Finalize(s: State, t: Token, owner: Pid, pr: nat, pushed: Option<Sha>, created: bool): State
    requires t in s.calls
  {
    var c := s.calls[t];
    if owner !in s.proposals.rows || !Holds(s, t) then At(s, t, Ending)
    else
      var row := s.proposals.rows[owner];
      var r := Put(s, t, c.(pc := Ending, finalized := true)).(
        status := FixCommitted, token := None,
        proposals := s.proposals.(rows := s.proposals.rows[owner :=
          Proposal(if pushed.Some? then pushed else row.pushed, Some(pr))]));
      if c.requested.Some? && c.requested.value != owner then r
      else r.(replies := s.replies + [Reply(c.requested, owner, pr, created)])
  }

  predicate Open(prs: seq<Pr>) {
    exists pr <- prs :: pr.open
  }

  /** The POST of a call that leaves it unanswered may still land. */
  function GivenUp(s: State, c: Call): nat {
    s.pendingCreates + if c.pc.Creating? then 1 else 0
  }

  /** A new PR of the branch, refused while one is open. */
  function AddPr(s: State): State
    requires s.branch.Some?
  {
    if Open(s.prs) then s else s.(prs := s.prs + [Pr(s.branch.value, true)])
  }

  ghost function RunCall(s: State, t: Token, step: CallStep): State
    requires t in s.calls
  {
    var c := s.calls[t];
    match step
    case Begin => if c.pc.Waiting? then Put(s, t, c.(snap := s.proposals, pc := Finding)) else s
    case FindAnswered(ok, seen) =>
      if !c.pc.Finding? then s
      else if !ok then At(s, t, Ending)
      else if s.prs != [] && seen then At(s, t, Found(|s.prs| - 1))
      else Put(s, t, c.(pc := NoPr, missed := s.prs != []))
    case TipRead(ok) =>
      if !c.pc.NoPr? then s
      else if !ok then At(s, t, Ending)
      else if s.branch.None? then At(s, t, Building)
      else
        var pusher := Pusher(c.snap.order, c.snap.rows, s.branch.value);
        if pusher.None? || (c.requested.Some? && c.requested != pusher) then At(s, t, Ending)
        else At(s, t, Creating(pusher.value, s.branch.value))
    case CommitBuilt(salt) =>
      if !c.pc.Building? then s
      else
        var sha := Sha(c.proposal, salt);
        if c.proposal !in s.proposals.rows then At(s, t, Ending)
        else At(s, t, Pushing(sha)).(sentPushes := s.sentPushes + {sha},
               proposals := s.proposals.(rows :=
                 s.proposals.rows[c.proposal := s.proposals.rows[c.proposal].(pushed := Some(sha))]))
    case PushEnded(arrived, answered) =>
      if !c.pc.Pushing? then s
      else
        var accepted := arrived && (s.branch.None? || s.branch == Some(c.pc.sha));
        var r := if arrived && s.branch.None? then s.(branch := Some(c.pc.sha), pushes := s.pushes + 1) else s;
        At(r, t, if accepted && answered then Creating(c.proposal, c.pc.sha) else Ending)
    case CreateEnded(arrived, answered) =>
      if !c.pc.Creating? then s
      else if !arrived || s.branch.None? then At(s, t, Ending).(pendingCreates := GivenUp(s, c))
      else if Open(s.prs) then At(s, t, if answered then FindingAgain else Ending)
      else
        var r := AddPr(At(s, t, Ending));
        if answered then Finalize(r, t, c.pc.owner, |s.prs|, Some(c.pc.sha), true) else r
    case FoundAgain(ok, seen) =>
      if !c.pc.FindingAgain? then s
      else At(s, t, if ok && seen && s.prs != [] then Found(|s.prs| - 1) else Ending)
    case CommitsRead(ok, commits) =>
      if !c.pc.Found? then s
      else if !ok || c.pc.pr >= |s.prs| then At(s, t, Ending)
      else
        var head := s.prs[c.pc.pr].head;
        var owner := ResolveOwner(c.snap, head, commits);
        if !Listing(head, commits) then s
        else if owner.Some? then Finalize(s, t, owner.value, c.pc.pr, None, false)
        else if c.requested.Some? then Finalize(s, t, c.requested.value, c.pc.pr, None, false)
        else At(s, t, Ending)
    case Abort => if c.pc.Leaving? then s else At(s, t, Ending).(pendingCreates := GivenUp(s, c))
    case Release(ok) =>
      if !c.pc.Ending? then s
      else if c.finalized || !ok then At(s, t, Leaving)
      else ReleaseClaim(At(s, t, Leaving), t)
    case Leave =>
      if !c.pc.Leaving? then s
      else s.(calls := s.calls - {t}, active := if s.active == Some(t) then None else s.active)
  }

  /** `release_claim`, a compare-and-set on the token. */
  function ReleaseClaim(s: State, t: Token): State {
    var r := s.(released := s.released + {t});
    if Holds(s, t) then r.(status := FixProposed, token := None) else r
  }

  function Reason(deleted: bool, reason: Option<bool>): bool {
    if reason.Some? then reason.value else deleted
  }

  /** A creation given up earlier reaches the remote now. */
  function LandCreate(s: State): State
    requires s.pendingCreates > 0
  {
    var r := s.(pendingCreates := s.pendingCreates - 1);
    if s.branch.None? || Open(s.prs) then r
    else AddPr(r).(calls := map t | t in s.calls :: s.calls[t].(overtaken := true))
  }

  /** Memory is gone; a POST in flight may still land. */
  function Crashed(s: State): State {
    var posting := exists t <- s.calls :: s.calls[t].pc.Creating?;
    s.(active := None, starting := None, calls := map[], deletes := map[], patches := map[],
       pendingCreates := s.pendingCreates + if posting then 1 else 0)
  }

  ghost function Next(s: State, e: Event): State {
    match e
    case Check(token, requested, configured) =>
      if s.starting.Some? || token in s.used then s else CheckOpen(s, token, requested, configured)
    case ClaimCas =>
      if s.starting.None? || s.starting.value.claimed then s else Claim(s)
    case Register =>
      if s.starting.None? || !s.starting.value.claimed then s
      else s.(active := Some(s.starting.value.token), starting := None)
    case On(t, step) =>
      if t !in s.calls || s.starting.Some? then s else RunCall(s, t, step)
    case DeleteRead(d) =>
      if d in s.deletes || s.deleted then s
      else s.(deletes := s.deletes[d := Delete(s.status, s.token, false, false)])
    case DeleteCheck(d) =>
      if d !in s.deletes || s.active.Some? then s.(deletes := s.deletes - {d})
      else
        var early := s.starting.Some? && s.starting.value.claimed && s.deletes[d].token == Some(s.starting.value.token);
        s.(deletes := s.deletes[d := s.deletes[d].(passed := true, early := early)])
    case DeleteWrite(d) =>
      if d !in s.deletes || !s.deletes[d].passed then s
      else
        var r := s.(deletes := s.deletes - {d});
        if !s.deleted && s.status == s.deletes[d].status && s.token == s.deletes[d].token
        then r.(status := Rejected, deleted := true) else r
    case PatchRead(p, target, reason) =>
      if p in s.patches || !PatchAccepts(s.status, target) then s
      else s.(patches := s.patches[p := Patch(s.status, target, reason)])
    case PatchWrite(p) =>
      if p !in s.patches then s
      else
        var r := s.(patches := s.patches - {p});
        if s.status == s.patches[p].from
        then r.(status := s.patches[p].to, deleted := Reason(s.deleted, s.patches[p].reason)) else r
    case StatusWritten(status, reason) =>
      if status.FixApproved? then s else s.(status := status, deleted := Reason(s.deleted, reason))
    case ProposalAdded(id) =>
      if id in s.proposals.rows then s
      else s.(proposals := Proposals([id] + s.proposals.order, s.proposals.rows[id := Proposal(None, None)]))
    case PrClosed(pr) =>
      if pr >= |s.prs| then s else s.(prs := s.prs[pr := s.prs[pr].(open := false)])
    case LatePush(sha) =>
      if sha !in s.sentPushes || s.branch.Some? then s else s.(branch := Some(sha), pushes := s.pushes + 1)
    case LateCreate => if s.pendingCreates == 0 then s else LandCreate(s)
    case Crash => Crashed(s)
  }

  ghost function Run(s: State, events: seq<Event>): State
    decreases |events|
  {
    if events == [] then s else Next(Run(s, events[..|events| - 1]), events[|events| - 1])
  }

  /** A report no open-pr call has ever claimed, and no branch of its name on the remote. */
  ghost predicate Initial(s: State) {
    && !s.status.FixApproved? && s.token.None? && s.proposals == Proposals([], map[])
    && s.active.None? && s.starting.None? && s.calls == map[] && s.deletes == map[] && s.patches == map[]
    && s.branch.None? && s.prs == [] && s.sentPushes == {} && s.pendingCreates == 0 && s.pushes == 0
    && s.used == {} && s.released == {} && s.replies == []
  }

  ghost predicate Reachable(s: State) {
    exists s0: State, events: seq<Event> :: Initial(s0) && s == Run(s0, events)
  }
}
