/** Duplicate links made by Stage 1 (pipeline/validator.py `find_duplicate`,
    pipeline/orchestrator.py `process_submitted`).

    The search and the write are one step: nothing is awaited between them, as
    the write lock is never held across an await. */
module Duplicates {
  import opened Common
  import opened Workflow

  type Id = string

  /** A report of the project, with the similarity of its text to the one
      being processed. */
  datatype Candidate = Candidate(id: Id, status: Status, score: real)

  predicate Eligible(c: Candidate, self: Id) {
    c.id != self && !c.status.Duplicate? && !c.status.Rejected?
  }

  predicate Matches(c: Candidate, self: Id, threshold: real) {
    Eligible(c, self) && c.score >= threshold && c.score > 0.0
  }

  /** The match a search must return: the first of the best. */
  ghost predicate BestMatch(cs: seq<Candidate>, self: Id, threshold: real, best: Option<Id>) {
    match best
    case None => forall c <- cs :: !Matches(c, self, threshold)
    case Some(id) =>
      exists i :: 0 <= i < |cs| && cs[i].id == id && Matches(cs[i], self, threshold)
        && (forall j :: 0 <= j < |cs| && Matches(cs[j], self, threshold) ==> cs[j].score <= cs[i].score)
        && (forall j :: 0 <= j < i && Matches(cs[j], self, threshold) ==> cs[j].score < cs[i].score)
  }

  /** `find_duplicate`. */
  method FindDuplicate(cs: seq<Candidate>, self: Id, threshold: real) returns (best: Option<Id>)
    ensures BestMatch(cs, self, threshold, best)
  {
    var bestScore, at := 0.0, 0;
    best := None;
    for i := 0 to |cs|
      invariant best.None? ==> bestScore == 0.0 && forall j :: 0 <= j < i ==> !Matches(cs[j], self, threshold)
      invariant best.Some? ==> at < i && cs[at].id == best.value && cs[at].score == bestScore
      invariant best.Some? ==> Matches(cs[at], self, threshold)
      invariant best.Some? ==> forall j :: 0 <= j < i && Matches(cs[j], self, threshold) ==> cs[j].score <= bestScore
      invariant best.Some? ==> forall j :: 0 <= j < at && Matches(cs[j], self, threshold) ==> cs[j].score < bestScore
    {
      var c := cs[i];
      if c.id != self && !c.status.Duplicate? && !c.status.Rejected? {
        if c.score >= threshold && c.score > bestScore {
          best, bestScore, at := Some(c.id), c.score, i;
        }
      }
    }
  }

  /** The search's answer is unique, up to reports of one id. */
  lemma BestMatchIsUnique(cs: seq<Candidate>, self: Id, threshold: real, p: Option<Id>, q: Option<Id>)
    requires BestMatch(cs, self, threshold, p) && BestMatch(cs, self, threshold, q)
    ensures p == q
  {
  }

  // ------------------------------------------------------------- the links

  datatype Link = Link(source: Id, target: Id)

  /** Every report's status, and the links in the order they were made. */
  datatype State = State(status: map<Id, Status>, links: seq<Link>)

  datatype Event =
    | Submitted(id: Id)
    | Processed(id: Id, candidates: seq<Candidate>, threshold: real, best: Option<Id>)
    | StatusWritten(id: Id, status: Status)
    | Deleted(id: Id)

  /** The candidates of a search are reports as they are. */
  ghost predicate Lists(s: State, candidates: seq<Candidate>) {
    forall c <- candidates :: c.id in s.status && c.status == s.status[c.id]
  }

  predicate Linked(links: seq<Link>, id: Id) {
    exists l <- links :: l.source == id
  }

  /** A report Stage 1 has linked was `submitted` until then, so no later stage
      runs on it, and `duplicate` is terminal: only deletion changes it, and
      drops its link. Any other report's status may be written at any time. */
  ghost function Next(s: State, e: Event): State {
    match e
    case Submitted(id) => if id in s.status then s else s.(status := s.status[id := Workflow.Submitted])
    case Processed(id, candidates, threshold, best) =>
      if id !in s.status || !s.status[id].Submitted? || !Lists(s, candidates) then s
      else if !BestMatch(candidates, id, threshold, best) then s
      else if best.None? then s.(status := s.status[id := Triaged])
      else State(s.status[id := Duplicate], s.links + [Link(id, best.value)])
    case StatusWritten(id, status) =>
      if id !in s.status || Linked(s.links, id) then s else s.(status := s.status[id := status])
    case Deleted(id) =>
      if id !in s.status then s
      else State(s.status[id := Rejected], Without(s.links, id))
  }

  function Without(links: seq<Link>, source: Id): seq<Link> {
    if links == [] then []
    else (if links[0].source == source then [] else [links[0]]) + Without(links[1..], source)
  }

  ghost function Run(s: State, events: seq<Event>): State
    decreases |events|
  {
    if events == [] then s else Next(Run(s, events[..|events| - 1]), events[|events| - 1])
  }

  /** The first link of a report among those from `from` on: its index, or the number of links. */
  function LinkOf(links: seq<Link>, source: Id, from: nat): (k: nat)
    requires from <= |links|
    ensures from <= k <= |links|
    ensures k < |links| ==> links[k].source == source
    ensures forall j :: from <= j < k ==> links[j].source != source
    decreases |links| - from
  {
    if from == |links| || links[from].source == source then from else LinkOf(links, source, from + 1)
  }

  /** A report has one link, and its target's link, if any, was made later. */
  ghost predicate Ordered(links: seq<Link>) {
    && (forall i, j :: 0 <= i < j < |links| ==> links[i].source != links[j].source)
    && (forall i, j :: 0 <= i < |links| && 0 <= j < |links| && links[i].target == links[j].source ==> i < j)
  }

  ghost predicate Inv(s: State) {
    && Ordered(s.links)
    && (forall l <- s.links :: l.source in s.status && s.status[l.source].Duplicate?)
  }

  lemma {:induction false} WithoutIs(links: seq<Link>, source: Id)
    ensures forall l :: l in Without(links, source) <==> l in links && l.source != source
    ensures Ordered(links) ==> Ordered(Without(links, source))
  {
    if links != [] {
      var rest := links[1..];
      assert links == [links[0]] + rest;
      WithoutIs(rest, source);
      if Ordered(links) {
        assert Ordered(rest) by {
          assert forall i :: 0 <= i < |rest| ==> rest[i] == links[i + 1];
        }
        if links[0].source != source {
          Prepended(links[0], Without(rest, source), rest);
        }
      }
    }
  }

  lemma Prepended(l: Link, kept: seq<Link>, rest: seq<Link>)
    requires Ordered([l] + rest) && Ordered(kept) && forall k <- kept :: k in rest
    ensures Ordered([l] + kept)
  {
    var all, out := [l] + rest, [l] + kept;
    assert l == all[0];
    forall k | k in kept ensures k.source != l.source && k.target != l.source {
      var i :| 0 <= i < |rest| && rest[i] == k;
      assert all[i + 1] == k;
    }
    assert l.target != l.source;
    assert forall i :: 0 < i < |out| ==> out[i] == kept[i - 1] && out[i] in kept;
    forall i, j | 0 <= i < |out| && 0 <= j < |out| && out[i].target == out[j].source ensures i < j {
      if i > 0 && j > 0 {
        assert kept[i - 1].target == kept[j - 1].source;
      }
    }
    forall i, j | 0 <= i < j < |out| ensures out[i].source != out[j].source {
      if i > 0 {
        assert kept[i - 1].source != kept[j - 1].source;
      }
    }
  }

  lemma StepKeeps(s: State, e: Event)
    requires Inv(s)
    ensures Inv(Next(s, e))
  {
    if e.Deleted? {
      WithoutIs(s.links, e.id);
    } else if e.Processed? && Next(s, e).links != s.links {
      var target := e.best.value;
      assert forall l <- s.links :: l.source != e.id && l.source != target;
    }
  }

  lemma {:induction false} RunKeeps(s: State, events: seq<Event>)
    requires Inv(s)
    ensures Inv(Run(s, events))
    decreases |events|
  {
    if events != [] {
      RunKeeps(s, events[..|events| - 1]);
      StepKeeps(Run(s, events[..|events| - 1]), events[|events| - 1]);
    }
  }

  /** Processing a submitted report links it, as a duplicate, if and only if the
      search has a match for it, and then to the best; otherwise it is triaged. */
  lemma ProcessedIsLinkedIff(s: State, id: Id, cs: seq<Candidate>, threshold: real, best: Option<Id>)
    requires Inv(s) && id in s.status && s.status[id].Submitted? && Lists(s, cs) && BestMatch(cs, id, threshold, best)
    ensures var t := Next(s, Processed(id, cs, threshold, best));
            var matched := exists c <- cs :: c.id != id && !c.status.Duplicate? && !c.status.Rejected?
                                              && c.score >= threshold && c.score > 0.0;
            && (Linked(t.links, id) <==> matched) && (matched <==> best.Some?)
            && t.links == (if best.Some? then s.links + [Link(id, best.value)] else s.links)
            && t.status == s.status[id := if matched then Duplicate else Triaged]
  {
    assert forall l <- s.links :: l.source != id;
    if best.Some? {
      assert (s.links + [Link(id, best.value)])[|s.links|] == Link(id, best.value);
      var i :| 0 <= i < |cs| && cs[i].id == best.value && Matches(cs[i], id, threshold);
      assert cs[i] in cs;
    }
  }

  /** Deleting a report drops its link and no other. */
  lemma DeletedIsUnlinked(s: State, id: Id)
    requires id in s.status
    ensures var t := Next(s, Deleted(id));
            && t.status == s.status[id := Rejected]
            && forall l :: l in t.links <==> l in s.links && l.source != id
  {
    WithoutIs(s.links, id);
  }

  /** Following links from a report. It terminates: the links followed are
      ever later, so the number of links after the last one followed decreases. */
  function Root(links: seq<Link>, id: Id, from: nat): (root: Id)
    requires from <= |links|
    decreases |links| - from
  {
    var k := LinkOf(links, id, from);
    if k == |links| then id else Root(links, links[k].target, k + 1)
  }

  /** A path of links. */
  predicate Path(links: seq<Link>, ids: seq<Id>) {
    forall i :: 0 <= i < |ids| - 1 ==> Link(ids[i], ids[i + 1]) in links
  }

  /** Links made in any processing order have no cycle: a path of at least one link never returns. */
  lemma {:induction false} PathsClimb(links: seq<Link>, ids: seq<Id>, start: nat)
    requires Ordered(links) && |ids| >= 2 && Path(links, ids)
    requires start < |links| && links[start] == Link(ids[0], ids[1])
    ensures forall k :: 1 <= k < |ids| ==> ids[k] != ids[0]
    ensures forall k, j :: 1 <= k < |ids| && 0 <= j < |links| && links[j].source == ids[k] ==> start < j
    decreases |ids|
  {
    if |ids| > 2 {
      var rest := ids[1..];
      assert Link(rest[0], rest[1]) == Link(ids[1], ids[1 + 1]);
      var next :| 0 <= next < |links| && links[next] == Link(rest[0], rest[1]);
      forall i | 0 <= i < |rest| - 1 ensures Link(rest[i], rest[i + 1]) in links {
        assert Link(ids[i + 1], ids[i + 1 + 1]) in links;
      }
      PathsClimb(links, rest, next);
      forall k, j | 1 <= k < |ids| && 0 <= j < |links| && links[j].source == ids[k] ensures start < j {
        if k > 1 { assert rest[k - 1] == ids[k]; }
      }
    }
  }

  /** Over every run: no report is reached from itself. */
  lemma NoCycles(status: map<Id, Status>, events: seq<Event>, ids: seq<Id>)
    requires |ids| >= 2 && Path(Run(State(status, []), events).links, ids)
    ensures ids[|ids| - 1] != ids[0]
  {
    RunKeeps(State(status, []), events);
    var links := Run(State(status, []), events).links;
    assert Link(ids[0], ids[0 + 1]) in links;
    var start :| 0 <= start < |links| && links[start] == Link(ids[0], ids[1]);
    PathsClimb(links, ids, start);
  }

  /** The root has no link at all, so following links from any report ends at
      a report that is not a duplicate of another. */
  lemma {:induction false} RootIsFree(links: seq<Link>, id: Id, from: nat)
    requires Ordered(links) && from <= |links|
    requires forall j :: 0 <= j < from ==> links[j].source != id
    ensures forall l <- links :: l.source != Root(links, id, from)
    decreases |links| - from
  {
    var k := LinkOf(links, id, from);
    if k < |links| {
      forall j | 0 <= j < k + 1 ensures links[j].source != links[k].target {
        assert links[k].target == links[j].source ==> k < j;
      }
      RootIsFree(links, links[k].target, k + 1);
    }
  }

  lemma {:induction false} RootIsReached(links: seq<Link>, id: Id, from: nat) returns (ids: seq<Id>)
    requires from <= |links|
    ensures ids != [] && ids[0] == id && ids[|ids| - 1] == Root(links, id, from) && Path(links, ids)
    decreases |links| - from
  {
    var k := LinkOf(links, id, from);
    if k == |links| {
      ids := [id];
    } else {
      var rest := RootIsReached(links, links[k].target, k + 1);
      ids := [id] + rest;
      assert links[k] == Link(id, rest[0]) && links[k] in links;
      forall i | 0 <= i < |ids| - 1 ensures Link(ids[i], ids[i + 1]) in links {
        if i > 0 {
          assert Link(rest[i - 1], rest[i - 1 + 1]) in links;
        }
      }
    }
  }

  /** Over every run, following links from any report leads, link by link, to
      a report that has none. */
  lemma EveryReportHasARoot(status: map<Id, Status>, events: seq<Event>, id: Id) returns (ids: seq<Id>)
    ensures var links := Run(State(status, []), events).links;
            && (forall l <- links :: l.source != Root(links, id, 0))
            && ids != [] && ids[0] == id && ids[|ids| - 1] == Root(links, id, 0) && Path(links, ids)
  {
    RunKeeps(State(status, []), events);
    RootIsFree(Run(State(status, []), events).links, id, 0);
    ids := RootIsReached(Run(State(status, []), events).links, id, 0);
  }
}
