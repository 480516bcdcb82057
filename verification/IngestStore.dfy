/** `ingest_commit`, the two page loops and the poll around them, written as the
    code is. While a request or the write lock is awaited the source may grow
    and the configuration may change. */
module IngestStore {
  import opened Common
  import opened Ingest
  import IngestSafety

  /** What one fetch came back with. */
  datatype Response = Got(page: Page, items: seq<Item>) | Error(badCursor: bool)

  /** What others do while the poll awaits one page, and then the write lock. */
  datatype Meanwhile = Meanwhile(fetching: seq<Event>, committing: seq<Event>)

  predicate Environment(e: Event) {
    e.SourceAdds? || e.ConfigChanged?
  }

  predicate Outside(m: Meanwhile) {
    (forall e <- m.fetching :: Environment(e)) && (forall e <- m.committing :: Environment(e))
  }

  /** What the environment leaves as it is: everything of the poll, and, until
      the configuration changes, all but the growth of the source. */
  ghost predicate Grown(a: State, b: State) {
    && b.limit == a.limit && b.poll == a.poll && b.imported == a.imported && a.generation <= b.generation
    && (b.generation == a.generation ==>
          IngestSafety.Within(a.source, b.source) && b.row == a.row && b.snapshot == a.snapshot && b.walked == a.walked)
  }

  lemma {:induction false} EnvironmentGrows(s: State, events: seq<Event>)
    requires forall e <- events :: Environment(e)
    ensures Grown(s, Run(s, events))
    decreases |events|
  {
    if events != [] {
      var e := events[|events| - 1];
      var r := Run(s, events[..|events| - 1]);
      assert e in events;
      EnvironmentGrows(s, events[..|events| - 1]);
      if e.SourceAdds? && e.key !in r.source {
        assert IngestSafety.Within(r.source, r.source[e.key := e.item]);
      }
    }
  }

  /** A server's page is a page of the source it is asked for. */
  ghost predicate Serves(server: (Source, Option<Key>) -> Response, limit: nat) {
    forall source, c ::
      server(source, c).Got? ==> IsPage(source, c, limit, server(source, c).page, server(source, c).items)
  }

  /** Some request is answered with this error. */
  ghost predicate Fails(server: (Source, Option<Key>) -> Response, bad: bool) {
    exists source, c :: server(source, c) == Error(bad)
  }

  predicate Rejects(events: seq<Event>) {
    FetchFailed(true) in events
  }

  /** How many pages a run was given. */
  function Fetches(events: seq<Event>): nat {
    if events == [] then 0
    else Fetches(events[..|events| - 1]) + if events[|events| - 1].Fetched? then 1 else 0
  }

  lemma {:induction false} FetchesConcat(xs: seq<Event>, ys: seq<Event>)
    ensures Fetches(xs + ys) == Fetches(xs) + Fetches(ys)
    decreases |ys|
  {
    if ys == [] {
      assert xs + ys == xs;
    } else {
      assert (xs + ys)[..|xs + ys| - 1] == xs + ys[..|ys| - 1];
      FetchesConcat(xs, ys[..|ys| - 1]);
    }
  }

  /** The cursor that the answers of a run leave behind: the next cursor of the
      last page that had one, or none after a cursor that was rejected. */
  function CursorAfter(c: Option<Key>, events: seq<Event>): Option<Key> {
    if events == [] then c
    else
      var e := events[|events| - 1];
      if e.Fetched? && e.page.next.Some? then e.page.next
      else if e == FetchFailed(true) then None
      else CursorAfter(c, events[..|events| - 1])
  }

  lemma {:induction false} CursorConcat(c: Option<Key>, xs: seq<Event>, ys: seq<Event>)
    ensures CursorAfter(c, xs + ys) == CursorAfter(CursorAfter(c, xs), ys)
    decreases |ys|
  {
    if ys == [] {
      assert xs + ys == xs;
    } else {
      assert (xs + ys)[..|xs + ys| - 1] == xs + ys[..|ys| - 1];
      CursorConcat(c, xs, ys[..|ys| - 1]);
    }
  }

  lemma {:induction false} OthersMoveNoCursor(c: Option<Key>, events: seq<Event>)
    requires forall e <- events :: Environment(e)
    ensures CursorAfter(c, events) == c
    decreases |events|
  {
    if events != [] {
      assert events[|events| - 1] in events;
      OthersMoveNoCursor(c, events[..|events| - 1]);
    }
  }

  lemma {:induction false} OthersFetchNothing(events: seq<Event>)
    requires forall e <- events :: Environment(e)
    ensures Fetches(events) == 0
    decreases |events|
  {
    if events != [] {
      assert events[|events| - 1] in events;
      OthersFetchNothing(events[..|events| - 1]);
    }
  }

  /** What one answer leads to: nothing more, or a commit, before which others act. */
  predicate Follows(committing: seq<Event>, rest: seq<Event>) {
    rest == [] || rest == [Commit] || rest == committing + [Commit]
  }

  lemma RestIsQuiet(c: Option<Key>, committing: seq<Event>, rest: seq<Event>)
    requires (forall e <- committing :: Environment(e)) && Follows(committing, rest)
    ensures CursorAfter(c, rest) == c && Fetches(rest) == 0 && !Rejects(rest)
  {
    OthersMoveNoCursor(c, committing);
    OthersFetchNothing(committing);
    CursorConcat(c, committing, [Commit]);
    FetchesConcat(committing, [Commit]);
    assert [Commit][..0] == [];
    assert CursorAfter(c, [Commit]) == c && Fetches([Commit]) == 0;
  }

  /** One turn's part of a run: others act, the answer, and what it leads to. */
  lemma OneTurn(c: Option<Key>, m: Meanwhile, answer: Event, rest: seq<Event>)
    requires Outside(m) && Follows(m.committing, rest)
    ensures var got := m.fetching + ([answer] + rest);
            && CursorAfter(c, got) == (if answer.Fetched? && answer.page.next.Some? then answer.page.next
                                       else if answer == FetchFailed(true) then None else c)
            && Fetches(got) == (if answer.Fetched? then 1 else 0)
            && (Rejects(got) <==> answer == FetchFailed(true))
  {
    OthersMoveNoCursor(c, m.fetching);
    OthersFetchNothing(m.fetching);
    RestIsQuiet(CursorAfter(c, [answer]), m.committing, rest);
    CursorConcat(c, m.fetching, [answer] + rest);
    CursorConcat(c, [answer], rest);
    FetchesConcat(m.fetching, [answer] + rest);
    FetchesConcat([answer], rest);
    assert [answer][..0] == [];
  }

  /** What `s` held between its poll's cursor and this one is imported. */
  ghost predicate Passed(s: State, cursor: Option<Key>, imported: set<Id>)
    requires s.poll.Some?
  {
    && s.imported <= imported
    && (forall k <- s.source :: After(k, s.poll.value.cursor) && !After(k, cursor) ==>
          IngestSafety.Got(imported, s.source[k]))
  }

  /** All `s` held past its poll's cursor is. */
  ghost predicate Finished(s: State, imported: set<Id>)
    requires s.poll.Some?
  {
    && s.imported <= imported
    && (forall k <- s.source :: After(k, s.poll.value.cursor) ==> IngestSafety.Got(imported, s.source[k]))
  }

  /** Importing a page of what the source has grown to. */
  lemma PageCovers(s: State, source: Source, cursor: Option<Key>, limit: nat, page: Page, items: seq<Item>,
                   imported: set<Id>)
    requires s.poll.Some? && IngestSafety.Within(s.source, source) && IsPage(source, cursor, limit, page, items)
    requires Passed(s, cursor, imported)
    ensures var after := Insert(imported, Mapped(items));
            && (page.next.Some? ==> Passed(s, page.next, after))
            && (WalkEnds(page, limit) ==> Finished(s, after))
  {
    var after := Insert(imported, Mapped(items));
    IngestSafety.MappedIds(items);
    forall k | k in page.keys ensures IngestSafety.Got(after, source[k]) {
      var i :| 0 <= i < |page.keys| && page.keys[i] == k;
      assert items[i] in items;
    }
  }

  /** The re-walk is the one that was in progress in `s`, or one begun since. */
  ghost predicate Started(s: State, walked: Source) {
    if s.row.Some? && s.row.value.walking then walked == s.snapshot else IngestSafety.Within(s.source, walked)
  }

  /** `_map_page`. */
  method MapPage(items: seq<Item>) returns (ids: seq<Id>, skipped: nat)
    ensures ids == Mapped(items) && |ids| + skipped == |items|
  {
    ids, skipped := [], 0;
    var i := 0;
    while i < |items|
      invariant 0 <= i <= |items| && |ids| + skipped == i
      invariant Mapped(items) == ids + Mapped(items[i..])
    {
      if items[i].mappable {
        ids := ids + [items[i].id];
      } else {
        skipped := skipped + 1;
      }
      i := i + 1;
    }
  }

  /** One project: its generation and source, its checkpoint, its imported
      reports, and the poll in progress. `world` is the rest of the machine. */
  class Project {
    var limit: nat
    var generation: nat
    var configured: bool
    var row: Option<Row>
    var imported: set<Id>
    var poll: Option<Poll>
    var source: Source
    ghost var world: State

    ghost function Machine(): State
      reads this
    {
      world.(limit := limit, generation := generation, configured := configured, row := row, imported := imported,
             poll := poll, source := source)
    }

    ghost predicate Valid()
      reads this
    {
      IngestSafety.Inv(Machine())
    }

    /** The forward cursor of this generation, if one is stored. */
    function Stored(): Option<Key>
      reads this`row, this`generation
    {
      if row.Some? && row.value.generation == generation then row.value.cursor else None
    }

    /** A re-walk of this generation is in progress. */
    predicate Walking()
      reads this`row, this`generation
    {
      row.Some? && row.value.generation == generation && row.value.walking
    }

    /** Its cursor. */
    function StoredWalk(): Option<Key>
      reads this`row, this`generation
    {
      if Walking() then row.value.walkCursor else None
    }

    /** Others act. */
    method Disturb(events: seq<Event>)
      requires forall e <- events :: Environment(e)
      modifies this`generation, this`configured, this`row, this`source, this`world
      ensures Machine() == Run(old(Machine()), events) && Grown(old(Machine()), Machine())
    {
      for i := 0 to |events|
        invariant Machine() == Run(old(Machine()), events[..i])
      {
        var e := events[i];
        assert e in events && events[..i + 1] == events[..i] + [e];
        RunSnoc(old(Machine()), events[..i], e);
        if e.SourceAdds? {
          if e.key !in source {
            world := world.(late := if exists k :: k in source && e.key < k then world.late + {e.key} else world.late);
            source := source[e.key := e.item];
          }
        } else {
          generation, configured, row, source := generation + 1, e.configured, None, e.source;
          world := world.(snapshot := map[], walked := map[], late := {});
        }
      }
      assert events[..|events|] == events;
      EnvironmentGrows(old(Machine()), events);
    }

    /** The INSERTs: an external id the project already has is skipped. */
    method InsertRows(ids: seq<Id>) returns (inserted: nat)
      modifies this`imported
      ensures imported == Insert(old(imported), ids)
      ensures inserted == |imported| - |old(imported)|
    {
      inserted := 0;
      for i := 0 to |ids|
        invariant imported == Insert(old(imported), ids[..i])
        invariant inserted == |imported| - |old(imported)|
      {
        assert ids[..i + 1] == ids[..i] + [ids[i]];
        if ids[i] !in imported {
          imported := imported + {ids[i]};
          inserted := inserted + 1;
        }
      }
      assert ids[..|ids|] == ids;
    }

    /** `ingest_commit`: None when the fence refused it. */
    method CommitRows(generation: nat, ids: seq<Id>, u: Update) returns (inserted: Option<nat>)
      modifies this`row, this`imported, this`world
      ensures Machine() == IngestCommit(old(Machine()), generation, ids, u)
      ensures inserted.None? <==> old(Fenced(Machine(), generation))
      ensures inserted.Some? ==> inserted.value == |imported| - |old(imported)|
    {
      if !configured || this.generation != generation {
        return None;
      }
      var before := FreshRow(generation);
      if row.Some? && row.value.generation == generation {
        before := row.value;
      } else {
        world := world.(base := |imported|);
      }
      var n := InsertRows(ids);
      row := Some(Apply(before, u).(importedTotal := before.importedTotal + n));
      return Some(n);
    }

    /** One page of `_forward`, imported with its checkpoint; whether the walk goes on. */
    method ForwardPageCommit() returns (more: bool)
      requires poll.Some? && poll.value.phase.ForwardPage?
      modifies this
      ensures Machine() == Next(old(Machine()), Commit)
      ensures limit == old(limit) && source == old(source) && generation == old(generation)
      ensures poll.Some? ==> old(poll).value.generation == generation == poll.value.generation
      ensures poll.None? ==> Fenced(Machine(), old(poll).value.generation)
      ensures more <==> poll.Some? && poll.value.phase.Forward?
      ensures !more && poll.Some? ==> poll.value.phase.Between? && WalkEnds(old(poll).value.phase.page, limit)
      ensures poll.Some? && old(poll).value.phase.page.next.Some? ==> Stored() == old(poll).value.phase.page.next
      ensures poll.Some? && old(poll).value.phase.page.next.None? ==> Stored() == old(Stored())
      ensures poll.Some? ==> imported == Insert(old(imported), Mapped(old(poll).value.phase.items))
      ensures more ==> poll.value.cursor == old(poll).value.phase.page.next
    {
      var p := poll.value;
      var page := p.phase.page;
      var ids, _ := MapPage(p.phase.items);
      var inserted := CommitRows(p.generation, ids, if page.next.Some? then SetCursor(page.next) else NoUpdate);
      if inserted.None? {
        poll := None;
        return false;
      }
      if page.next.None? || |page.keys| < limit {
        poll := Some(p.(phase := Between));
        return false;
      }
      poll := Some(p.(phase := Forward, cursor := page.next));
      return true;
    }

    /** One page of `_rewalk`; whether the walk goes on. */
    method WalkPageCommit() returns (more: bool)
      requires poll.Some? && poll.value.phase.WalkPage?
      modifies this
      ensures Machine() == Next(old(Machine()), Commit)
      ensures limit == old(limit) && source == old(source) && generation == old(generation)
      ensures poll.Some? ==> old(poll).value.generation == generation == poll.value.generation
      ensures poll.None? ==> Fenced(Machine(), old(poll).value.generation)
      ensures more <==> poll.Some? && poll.value.phase.Walk?
      ensures !more && poll.Some? ==> poll.value.phase == Closing(true) && world.walked == old(world.snapshot)
      ensures more ==> world.snapshot == old(world.snapshot) && old(poll).value.phase.page.next.Some?
      ensures poll.Some? ==> Stored() == old(Stored()) && (old(Walking()) ==> (Walking() <==> more))
      ensures more && old(Walking()) ==> StoredWalk() == old(poll).value.phase.page.next
    {
      var p := poll.value;
      var page := p.phase.page;
      var done := page.next.None? || |page.keys| < limit;
      var ids, _ := MapPage(p.phase.items);
      var inserted := CommitRows(p.generation, ids, if done then EndWalk else SetWalk(page.next));
      if inserted.None? {
        poll := None;
        return false;
      }
      assert Stored() == old(Stored()) && (old(Walking()) ==> Walking() == !done);
      if done {
        poll := Some(p.(phase := Closing(true)));
        world := world.(walked := world.snapshot);
        return false;
      }
      poll := Some(p.(phase := Walk, cursor := page.next));
      return true;
    }

    /** A commit without rows: of a rewound cursor, or of the end of the poll. */
    method CommitUpdate(u: Update, phase: Option<Phase>) returns (ok: bool)
      requires poll.Some? && (poll.value.phase.BadForward? || poll.value.phase.BadWalk? || poll.value.phase.Closing?)
      requires u == UpdateOf(poll.value.phase, limit)
      requires phase == if poll.value.phase.Closing? then None else Some(Closing(false))
      modifies this
      ensures Machine() == Next(old(Machine()), Commit)
      ensures limit == old(limit) && source == old(source) && generation == old(generation)
      ensures ok ==> poll == if phase.Some? then Some(old(poll).value.(phase := phase.value)) else None
      ensures !ok ==> poll.None? && Fenced(Machine(), old(poll).value.generation)
      ensures ok ==> generation == old(poll).value.generation && Walking() == old(Walking())
      ensures ok ==> Stored() == if u.SetCursor? then u.cursor else old(Stored())
      ensures ok && Walking() ==> StoredWalk() == if u.SetWalk? then u.cursor else old(StoredWalk())
    {
      var p := poll.value;
      var written := CommitRows(p.generation, [], u);
      if written.None? {
        poll := None;
        return false;
      }
      poll := if phase.Some? then Some(p.(phase := phase.value)) else None;
      return true;
    }

    /** `_forward`: pages until the walk ends, an error, the fence, or the cap.
        Whatever happens meanwhile, a walk that ends has imported everything the
        source held when it began, but what had been put in behind its cursor. */
    method ForwardWalk(server: (Source, Option<Key>) -> Response, maxPages: nat, meanwhile: nat -> Meanwhile)
      returns (complete: bool, ghost trace: seq<Event>)
      requires Valid() && poll.Some? && poll.value.phase.Forward?
      requires Serves(server, limit) && forall i :: Outside(meanwhile(i))
      modifies this
      ensures Valid() && Machine() == Run(old(Machine()), trace) && limit == old(limit)
      ensures poll.Some? ==> poll.value.phase.Between? || poll.value.phase.Closing?
      ensures poll.None? ==> Fenced(Machine(), old(poll).value.generation)
      ensures poll.Some? && poll.value.phase.Closing? ==> Fails(server, Rejects(trace))
      ensures poll.Some? && poll.value.phase.Between? ==> complete || Fetches(trace) == maxPages
      ensures poll.Some? && poll.value.generation == generation ==> Stored() == CursorAfter(old(Stored()), trace)
      ensures complete ==> poll.Some? && poll.value.phase.Between?
      ensures complete ==> forall k <- old(source) ::
                || IngestSafety.Got(imported, old(source)[k])
                || (k in old(world.late) && !After(k, old(poll).value.cursor))
    {
      trace := [];
      ghost var s0 := Machine();
      var pages, more := 0, true;
      complete := false;
      while more && pages < maxPages
        invariant Machine() == Run(s0, trace) && limit == s0.limit && s0.generation <= generation
        invariant more <==> poll.Some? && poll.value.phase.Forward?
        invariant !more && poll.Some? ==> poll.value.phase.Between? || poll.value.phase.Closing?
        invariant poll.Some? ==> poll.value.generation == s0.poll.value.generation
        invariant more && poll.value.generation == generation ==>
                    IngestSafety.Within(s0.source, source) && Passed(s0, poll.value.cursor, imported)
        invariant complete ==> poll.Some? && poll.value.phase.Between? && poll.value.generation == generation
        invariant complete ==> Finished(s0, imported)
        invariant poll.None? ==> Fenced(Machine(), s0.poll.value.generation)
        invariant poll.Some? && poll.value.phase.Closing? ==> Fails(server, Rejects(trace))
        invariant poll.Some? && poll.value.phase.Between? ==> complete
        invariant more ==> !Rejects(trace)
        invariant poll.Some? && poll.value.generation == generation ==> Stored() == CursorAfter(old(Stored()), trace)
        invariant pages <= maxPages && (more ==> Fetches(trace) == pages)
        decreases maxPages - pages
      {
        ghost var got;
        more, got := ForwardTurn(server, meanwhile(pages), s0);
        RunConcat(s0, trace, got);
        FetchesConcat(trace, got);
        CursorConcat(old(Stored()), trace, got);
        trace := trace + got;
        pages := pages + 1;
        complete := !more && poll.Some? && poll.value.phase.Between?;
      }
      if more {
        poll := Some(poll.value.(phase := Between));
        RunSnoc(s0, trace, PageCap);
        FetchesConcat(trace, [PageCap]);
        CursorConcat(old(Stored()), trace, [PageCap]);
        assert [PageCap][..0] == [];
        trace := trace + [PageCap];
      }
      IngestSafety.RunKeeps(s0, trace);
    }

    /** One turn of the loop. */
    method ForwardTurn(server: (Source, Option<Key>) -> Response, meanwhile: Meanwhile, ghost s0: State)
      returns (more: bool, ghost trace: seq<Event>)
      requires poll.Some? && poll.value.phase.Forward? && Serves(server, limit) && Outside(meanwhile)
      requires s0.poll.Some?
      requires poll.value.generation == generation ==>
                 IngestSafety.Within(s0.source, source) && Passed(s0, poll.value.cursor, imported)
      requires poll.value.generation <= generation
      modifies this
      ensures Machine() == Run(old(Machine()), trace) && limit == old(limit) && old(generation) <= generation
      ensures more <==> poll.Some? && poll.value.phase.Forward?
      ensures !more && poll.Some? ==> poll.value.phase.Between? || poll.value.phase.Closing?
      ensures poll.Some? ==> poll.value.generation == old(poll).value.generation
      ensures more && poll.value.generation == generation ==>
                IngestSafety.Within(s0.source, source) && Passed(s0, poll.value.cursor, imported)
      ensures !more && poll.Some? && poll.value.phase.Between? ==>
                poll.value.generation == generation && Finished(s0, imported)
      ensures poll.None? ==> Fenced(Machine(), old(poll).value.generation)
      ensures poll.Some? && poll.value.phase.Closing? ==> Fails(server, Rejects(trace))
      ensures more ==> Fetches(trace) == 1 && !Rejects(trace)
      ensures poll.Some? && poll.value.generation == generation ==> Stored() == CursorAfter(old(Stored()), trace)
    {
      ghost var s := Machine();
      var cursor := poll.value.cursor;
      Disturb(meanwhile.fetching);
      var response := server(source, cursor);
      ghost var fetched, before := source, imported;
      ghost var rest;
      if response.Error? {
        rest := Stop(response.badCursor);
        OneTurn(old(Stored()), meanwhile, FetchFailed(response.badCursor), rest);
        trace := meanwhile.fetching + ([FetchFailed(response.badCursor)] + rest);
        more := false;
      } else {
        more, rest := ForwardAnswered(response.page, response.items, meanwhile.committing);
        OneTurn(old(Stored()), meanwhile, Fetched(response.page, response.items), rest);
        trace := meanwhile.fetching + ([Fetched(response.page, response.items)] + rest);
        if poll.Some? {
          PageCovers(s0, fetched, cursor, limit, response.page, response.items, before);
        }
      }
      RunConcat(s, meanwhile.fetching, trace[|meanwhile.fetching|..]);
    }

    /** A walk stopped by an error: a rejected cursor is dropped at once. */
    method Stop(bad: bool) returns (ghost rest: seq<Event>)
      requires poll.Some? && (poll.value.phase.Forward? || poll.value.phase.Walk?)
      modifies this
      ensures Machine() == Run(old(Machine()), [FetchFailed(bad)] + rest) && rest == if bad then [Commit] else []
      ensures limit == old(limit) && generation == old(generation)
      ensures poll.Some? ==> poll == Some(old(poll).value.(phase := Closing(false)))
      ensures poll.None? ==> Fenced(Machine(), old(poll).value.generation)
      ensures poll.Some? ==>
                && Walking() == old(Walking())
                && Stored() == (if bad && old(poll).value.phase.Forward? then None else old(Stored()))
                && StoredWalk() == (if bad && old(poll).value.phase.Walk? then None else old(StoredWalk()))
    {
      ghost var s := Machine();
      RunSnoc(s, [], FetchFailed(bad));
      assert [] + [FetchFailed(bad)] == [FetchFailed(bad)];
      rest := [];
      var forward := poll.value.phase.Forward?;
      if !bad {
        poll := Some(poll.value.(phase := Closing(false)));
      } else {
        RunSnoc(s, [FetchFailed(true)], Commit);
        poll := Some(poll.value.(phase := if forward then BadForward else BadWalk));
        var _ := CommitUpdate(if forward then SetCursor(None) else SetWalk(None), Some(Closing(false)));
        rest := [Commit];
      }
    }

    /** A forward page that arrived, and its commit. */
    method ForwardAnswered(page: Page, items: seq<Item>, committing: seq<Event>)
      returns (more: bool, ghost rest: seq<Event>)
      requires poll.Some? && poll.value.phase.Forward? && poll.value.generation <= generation
      requires IsPage(source, poll.value.cursor, limit, page, items) && forall e <- committing :: Environment(e)
      modifies this
      ensures Machine() == Run(old(Machine()), [Fetched(page, items)] + rest) && rest == committing + [Commit]
      ensures limit == old(limit) && old(generation) <= generation
      ensures more <==> poll.Some? && poll.value.phase.Forward?
      ensures !more && poll.Some? ==> poll.value.phase.Between? && WalkEnds(page, limit)
      ensures poll.None? ==> Fenced(Machine(), old(poll).value.generation)
      ensures poll.Some? ==>
                && poll.value.generation == generation == old(poll).value.generation
                && imported == Insert(old(imported), Mapped(items)) && IngestSafety.Within(old(source), source)
                && Stored() == (if page.next.Some? then page.next else old(Stored()))
      ensures more ==> poll.value.cursor == page.next
    {
      ghost var s := Machine();
      poll := Some(poll.value.(phase := ForwardPage(page, items)));
      Disturb(committing);
      rest := committing + [Commit];
      AnswerRuns(s, Fetched(page, items), committing);
      more := ForwardPageCommit();
    }

    /** The start of `_rewalk`: go on with the recorded one, record a new start, or neither. */
    method BeginRewalk(due: bool, starting: seq<Event>) returns (more: bool, ghost trace: seq<Event>)
      requires Valid() && poll.Some? && poll.value.phase.Between? && forall e <- starting :: Environment(e)
      modifies this
      ensures Machine() == Run(old(Machine()), trace) && limit == old(limit) && old(generation) <= generation
      ensures more <==> poll.Some? && poll.value.phase.Walk?
      ensures !more && poll.Some? ==> poll.value.phase.Closing?
      ensures poll.Some? ==> poll.value.generation == old(poll).value.generation
      ensures more && poll.value.generation == generation ==> Started(old(Machine()), world.snapshot)
      ensures poll.None? ==> Fenced(Machine(), old(poll).value.generation)
      ensures poll.Some? && poll.value.phase.Closing? ==>
                poll.value.phase.ok && !due && !(old(row).Some? && old(row).value.walking)
      ensures more ==> due || (old(row).Some? && old(row).value.walking)
      ensures Fetches(trace) == 0 && !Rejects(trace) && CursorAfter(old(StoredWalk()), trace) == old(StoredWalk())
      ensures poll.Some? && poll.value.generation == generation ==> Stored() == old(Stored())
      ensures more && poll.value.generation == generation ==> Walking() && StoredWalk() == old(StoredWalk())
    {
      ghost var s := Machine();
      var p := poll.value;
      RunSnoc(s, [], Rewalk(due));
      trace := [] + [Rewalk(due)];
      FetchesConcat([], [Rewalk(due)]);
      CursorConcat(StoredWalk(), [], [Rewalk(due)]);
      assert [Rewalk(due)][..0] == [];
      if row.Some? && row.value.walking {
        poll := Some(p.(phase := Walk, cursor := row.value.walkCursor));
        return true, trace;
      }
      if !due {
        poll := Some(p.(phase := Closing(true)));
        return false, trace;
      }
      poll := Some(p.(phase := StartWalk));
      RunConcat(s, trace, starting);
      Disturb(starting);
      OthersFetchNothing(starting);
      FetchesConcat(trace, starting);
      OthersMoveNoCursor(old(StoredWalk()), starting);
      CursorConcat(old(StoredWalk()), trace, starting);
      trace := trace + starting;
      FetchesConcat(trace, [Commit]);
      CursorConcat(old(StoredWalk()), trace, [Commit]);
      RunSnoc(s, trace, Commit);
      more := RecordStart();
      trace := trace + [Commit];
    }

    /** The re-walk's start is written before its first page is asked for. */
    method RecordStart() returns (ok: bool)
      requires poll.Some? && poll.value.phase.StartWalk?
      modifies this
      ensures Machine() == Next(old(Machine()), Commit)
      ensures limit == old(limit) && source == old(source) && generation == old(generation)
      ensures ok ==> poll == Some(old(poll).value.(phase := Walk, cursor := None)) && world.snapshot == source
      ensures !ok ==> poll.None? && Fenced(Machine(), old(poll).value.generation)
      ensures ok ==> Stored() == old(Stored()) && Walking() && StoredWalk().None?
    {
      var p := poll.value;
      var begun := CommitRows(p.generation, [], BeginWalk);
      if begun.None? {
        poll := None;
        return false;
      }
      poll := Some(p.(phase := Walk, cursor := None));
      world := world.(snapshot := source);
      return true;
    }

    /** One turn of the re-walk's loop. */
    method WalkTurn(server: (Source, Option<Key>) -> Response, meanwhile: Meanwhile)
      returns (more: bool, done: bool, ghost trace: seq<Event>)
      requires poll.Some? && poll.value.phase.Walk? && Serves(server, limit) && Outside(meanwhile)
      requires poll.value.generation <= generation
      modifies this
      ensures Machine() == Run(old(Machine()), trace) && limit == old(limit) && old(generation) <= generation
      ensures more <==> poll.Some? && poll.value.phase.Walk?
      ensures !more && poll.Some? ==> poll.value.phase.Closing?
      ensures poll.Some? ==> poll.value.generation == old(poll).value.generation
      ensures more && poll.value.generation == generation ==>
                old(generation) == generation && world.snapshot == old(world.snapshot)
      ensures poll.None? ==> Fenced(Machine(), old(poll).value.generation)
      ensures poll.Some? && poll.value.phase.Closing? ==>
                if poll.value.phase.ok then done else Fails(server, Rejects(trace))
      ensures more ==> Fetches(trace) == 1 && !Rejects(trace)
      ensures poll.Some? && poll.value.generation == generation ==>
                && Stored() == old(Stored())
                && (old(Walking()) ==>
                      (Walking() <==> !done) && (!done ==> StoredWalk() == CursorAfter(old(StoredWalk()), trace)))
      ensures done ==> !more && old(generation) == old(poll).value.generation && world.walked == old(world.snapshot)
    {
      ghost var s := Machine();
      Disturb(meanwhile.fetching);
      var response := server(source, poll.value.cursor);
      ghost var rest;
      if response.Error? {
        rest := Stop(response.badCursor);
        OneTurn(old(StoredWalk()), meanwhile, FetchFailed(response.badCursor), rest);
        trace := meanwhile.fetching + ([FetchFailed(response.badCursor)] + rest);
        more, done := false, false;
      } else {
        more, rest := WalkAnswered(response.page, response.items, meanwhile.committing);
        OneTurn(old(StoredWalk()), meanwhile, Fetched(response.page, response.items), rest);
        trace := meanwhile.fetching + ([Fetched(response.page, response.items)] + rest);
        done := !more && poll.Some?;
      }
      RunConcat(s, meanwhile.fetching, trace[|meanwhile.fetching|..]);
    }

    /** A page of the re-walk that arrived, and its commit. */
    method WalkAnswered(page: Page, items: seq<Item>, committing: seq<Event>)
      returns (more: bool, ghost rest: seq<Event>)
      requires poll.Some? && poll.value.phase.Walk? && poll.value.generation <= generation
      requires IsPage(source, poll.value.cursor, limit, page, items) && forall e <- committing :: Environment(e)
      modifies this
      ensures Machine() == Run(old(Machine()), [Fetched(page, items)] + rest) && rest == committing + [Commit]
      ensures limit == old(limit) && old(generation) <= generation
      ensures more <==> poll.Some? && poll.value.phase.Walk?
      ensures !more && poll.Some? ==> poll.value.phase == Closing(true) && world.walked == old(world.snapshot)
      ensures poll.None? ==> Fenced(Machine(), old(poll).value.generation)
      ensures poll.Some? ==>
                && poll.value.generation == generation == old(poll).value.generation == old(generation)
                && Stored() == old(Stored()) && (old(Walking()) ==> (Walking() <==> more))
      ensures more ==> world.snapshot == old(world.snapshot) && page.next.Some?
      ensures more && old(Walking()) ==> StoredWalk() == page.next
    {
      ghost var s := Machine();
      poll := Some(poll.value.(phase := WalkPage(page, items)));
      Disturb(committing);
      rest := committing + [Commit];
      AnswerRuns(s, Fetched(page, items), committing);
      more := WalkPageCommit();
    }

    /** `_rewalk`: the recorded re-walk goes on, or one begins if it is due.
        Whatever happens meanwhile, when it completes everything the source held
        at its recorded start is imported: at the start of this call, if it
        began here. */
    method ReconcilingWalk(server: (Source, Option<Key>) -> Response, maxPages: nat, due: bool, starting: seq<Event>,
                           meanwhile: nat -> Meanwhile)
      returns (complete: bool, ghost trace: seq<Event>)
      requires Valid() && poll.Some? && poll.value.phase.Between?
      requires Serves(server, limit) && (forall e <- starting :: Environment(e)) && forall i :: Outside(meanwhile(i))
      modifies this
      ensures Valid() && Machine() == Run(old(Machine()), trace) && limit == old(limit)
      ensures poll.Some? ==> poll.value.phase.Closing?
      ensures poll.None? ==> Fenced(Machine(), old(poll).value.generation)
      ensures poll.Some? && !poll.value.phase.ok ==> Fails(server, Rejects(trace))
      ensures poll.Some? && poll.value.generation == generation ==>
                && Stored() == old(Stored())
                && (due || (old(row).Some? && old(row).value.walking) ==>
                      && (Walking() <==> !complete)
                      && (!complete ==> StoredWalk() == CursorAfter(old(StoredWalk()), trace)))
      ensures poll.Some? && poll.value.phase.ok ==>
                complete || Fetches(trace) == maxPages || !(due || (old(row).Some? && old(row).value.walking))
      ensures complete ==> IngestSafety.Covered(world.walked, imported) && Started(old(Machine()), world.walked)
    {
      ghost var s := Machine();
      var pages, more := 0, false;
      more, trace := BeginRewalk(due, starting);
      complete := false;
      while more && pages < maxPages
        invariant Machine() == Run(s, trace) && limit == s.limit && s.generation <= generation
        invariant more <==> poll.Some? && poll.value.phase.Walk?
        invariant !more && poll.Some? ==> poll.value.phase.Closing?
        invariant poll.Some? ==> poll.value.generation == s.poll.value.generation
        invariant more && poll.value.generation == generation ==> Started(s, world.snapshot)
        invariant complete ==> !more && Started(s, world.walked)
        invariant poll.None? ==> Fenced(Machine(), s.poll.value.generation)
        invariant !more && poll.Some? && poll.value.phase.ok ==>
                    complete || !(due || (s.row.Some? && s.row.value.walking))
        invariant !more && poll.Some? && !poll.value.phase.ok ==> Fails(server, Rejects(trace))
        invariant more ==> !Rejects(trace) && (due || (s.row.Some? && s.row.value.walking))
        invariant poll.Some? && poll.value.generation == generation ==> Stored() == old(Stored())
        invariant poll.Some? && poll.value.generation == generation && (due || (s.row.Some? && s.row.value.walking)) ==>
                    (Walking() <==> !complete) && (!complete ==> StoredWalk() == CursorAfter(old(StoredWalk()), trace))
        invariant pages <= maxPages && (more ==> Fetches(trace) == pages)
        decreases maxPages - pages
      {
        ghost var got;
        more, complete, got := WalkTurn(server, meanwhile(pages));
        RunConcat(s, trace, got);
        FetchesConcat(trace, got);
        CursorConcat(old(StoredWalk()), trace, got);
        trace := trace + got;
        pages := pages + 1;
      }
      if more {
        poll := Some(poll.value.(phase := Closing(true)));
        RunSnoc(s, trace, PageCap);
        FetchesConcat(trace, [PageCap]);
        CursorConcat(old(StoredWalk()), trace, [PageCap]);
        assert [PageCap][..0] == [];
        trace := trace + [PageCap];
      }
      IngestSafety.RunKeeps(s, trace);
    }

    /** `poll_project`: without a credential only the bookkeeping; else the
        forward walk, the re-walk unless the first one failed, and the
        bookkeeping. A complete forward walk has imported everything the source
        held when the poll began, but what had been put in behind its cursor. */
    method PollProject(server: (Source, Option<Key>) -> Response, credential: bool, maxPages: nat, rewalkPages: nat,
                       due: bool, starting: seq<Event>, forward: nat -> Meanwhile, rewalk: nat -> Meanwhile)
      returns (complete: bool, ghost trace: seq<Event>)
      requires Valid() && poll.None? && Serves(server, limit)
      requires (forall e <- starting :: Environment(e)) && forall i :: Outside(forward(i)) && Outside(rewalk(i))
      modifies this
      ensures Valid() && Machine() == Run(old(Machine()), trace) && poll.None?
      ensures !old(configured) ==> !complete && Machine() == old(Machine())
      ensures complete ==> forall k <- old(source) ::
                IngestSafety.Got(imported, old(source)[k]) || k in old(world.late)
    {
      ghost var s := Machine();
      RunSnoc(s, [], Start);
      trace, complete := [] + [Start], false;
      var started := StartPoll();
      if !started {
        return;
      }
      ghost var rest;
      if credential {
        complete, rest := Walks(server, maxPages, rewalkPages, due, starting, forward, rewalk);
      } else {
        rest := Refuse();
      }
      RunConcat(s, trace, rest);
      trace := trace + rest;
      RunConcat(s, trace, if poll.Some? then [Commit] else []);
      trace := trace + if poll.Some? then [Commit] else [];
      FinishPoll();
      IngestSafety.RunKeeps(s, trace);
    }

    /** The forward walk starts at the cursor of its own generation. */
    method StartPoll() returns (started: bool)
      requires Valid() && poll.None?
      modifies this
      ensures Valid() && Machine() == Next(old(Machine()), Start) && started == configured
      ensures if started then poll.Some? && poll.value.phase.Forward? else Machine() == old(Machine())
      ensures source == old(source) && world == old(world) && limit == old(limit)
    {
      IngestSafety.StepKeeps(Machine(), Start);
      if configured {
        poll := Some(Poll(generation, Forward,
                          if row.Some? && row.value.generation == generation then row.value.cursor else None));
      }
      return configured;
    }

    /** No credential: nothing is asked for. */
    method Refuse() returns (ghost trace: seq<Event>)
      requires poll.Some?
      modifies this`poll
      ensures Machine() == Run(old(Machine()), trace) && poll.Some? && poll.value.phase.Closing?
    {
      RunSnoc(Machine(), [], Raised);
      trace := [] + [Raised];
      poll := Some(poll.value.(phase := Closing(false)));
    }

    /** `_finish`, unless the fence has ended the poll. */
    method FinishPoll()
      requires poll.Some? ==> poll.value.phase.Closing?
      modifies this
      ensures Machine() == Run(old(Machine()), if old(poll).Some? then [Commit] else [])
      ensures poll.None? && old(imported) <= imported
    {
      ghost var s := Machine();
      if poll.Some? {
        RunSnoc(s, [], Commit);
        assert [] + [Commit] == [Commit];
        var _ := CommitUpdate(if poll.value.phase.ok then Succeeded else CountFailure, None);
        IngestSafety.CommitForgetsNothing(s);
      }
    }

    /** The two walks of one poll. */
    method Walks(server: (Source, Option<Key>) -> Response, maxPages: nat, rewalkPages: nat, due: bool,
                 starting: seq<Event>, forward: nat -> Meanwhile, rewalk: nat -> Meanwhile)
      returns (complete: bool, ghost trace: seq<Event>)
      requires Valid() && poll.Some? && poll.value.phase.Forward? && Serves(server, limit)
      requires (forall e <- starting :: Environment(e)) && forall i :: Outside(forward(i)) && Outside(rewalk(i))
      modifies this
      ensures Valid() && Machine() == Run(old(Machine()), trace) && limit == old(limit)
      ensures poll.Some? ==> poll.value.phase.Closing?
      ensures complete ==> forall k <- old(source) ::
                IngestSafety.Got(imported, old(source)[k]) || k in old(world.late)
    {
      ghost var s := Machine();
      complete, trace := ForwardWalk(server, maxPages, forward);
      if poll.Some? && poll.value.phase.Between? {
        ghost var between := Machine();
        var _, rest := ReconcilingWalk(server, rewalkPages, due, starting, rewalk);
        RunConcat(s, trace, rest);
        trace := trace + rest;
        IngestSafety.RunForgetsNothing(between, rest);
      }
    }
  }

  lemma {:induction false} RunConcat(s: State, xs: seq<Event>, ys: seq<Event>)
    ensures Run(s, xs + ys) == Run(Run(s, xs), ys)
    decreases |ys|
  {
    if ys == [] {
      assert xs + ys == xs;
    } else {
      var before := ys[..|ys| - 1];
      assert xs + ys == (xs + before) + [ys[|ys| - 1]];
      RunSnoc(s, xs + before, ys[|ys| - 1]);
      RunConcat(s, xs, before);
    }
  }

  lemma AnswerRuns(s: State, answer: Event, committing: seq<Event>)
    ensures Run(s, [answer] + (committing + [Commit])) == Next(Run(Next(s, answer), committing), Commit)
  {
    RunSnoc(s, [], answer);
    assert [] + [answer] == [answer];
    RunConcat(s, [answer], committing + [Commit]);
    RunSnoc(Run(s, [answer]), committing, Commit);
  }

  lemma RunSnoc(s: State, events: seq<Event>, e: Event)
    ensures Run(s, events + [e]) == Next(Run(s, events), e)
  {
    assert (events + [e])[..|events + [e]| - 1] == events;
  }
}
