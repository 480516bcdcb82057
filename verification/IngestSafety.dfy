/** What the ingest walks guarantee over every run. */
module IngestSafety {
  import opened Common
  import opened Ingest

  /** Imported, or impossible to import. */
  predicate Got(imported: set<Id>, item: Item) {
    item.mappable ==> item.id in imported
  }

  ghost predicate Within(part: Source, whole: Source) {
    forall k <- part :: k in whole && whole[k] == part[k]
  }

  /** Every item at or before the cursor is imported or unmappable, or excused. */
  ghost predicate CoveredTo(source: Source, cursor: Option<Key>, imported: set<Id>, excused: set<Key>) {
    forall k <- source :: cursor.Some? && k <= cursor.value ==> Got(imported, source[k]) || k in excused
  }

  ghost predicate Covered(source: Source, imported: set<Id>) {
    forall k <- source :: Got(imported, source[k])
  }

  ghost predicate FromSource(source: Source, page: Page, items: seq<Item>) {
    && |items| == |page.keys|
    && (forall i :: 0 <= i < |page.keys| ==> page.keys[i] in source && items[i] == source[page.keys[i]])
    && (page.next.Some? ==> page.next.value in source)
  }

  predicate Current(s: State) {
    s.poll.Some? && s.poll.value.generation == s.generation
  }

  function Cursor(s: State): Option<Key> {
    if s.row.Some? then s.row.value.cursor else None
  }

  ghost predicate RowOk(s: State) {
    && s.limit >= 1
    && (s.row.Some? ==> s.configured && s.row.value.generation == s.generation)
    && (s.row.Some? ==> s.row.value.importedTotal == |s.imported| - s.base)
    && (s.poll.Some? ==> s.poll.value.generation <= s.generation && (Current(s) ==> s.configured))
  }

  ghost predicate ForwardOk(s: State) {
    && CoveredTo(s.source, Cursor(s), s.imported, s.late)
    && (Cursor(s).Some? ==> Cursor(s).value in s.source)
  }

  ghost predicate WalkOk(s: State) {
    && Within(s.snapshot, s.source)
    && Covered(s.walked, s.imported)
    && (s.row.Some? && s.row.value.walking ==> CoveredTo(s.snapshot, s.row.value.walkCursor, s.imported, {}))
  }

  ghost predicate PollOk(s: State)
    requires s.poll.Some?
  {
    var p := s.poll.value;
    && (p.phase.Forward? || p.phase.ForwardPage? || p.phase.BadForward? ==> p.cursor == Cursor(s))
    && (p.phase.StartWalk? ==> s.row.None? || !s.row.value.walking)
    && (p.phase.Walk? || p.phase.WalkPage? || p.phase.BadWalk? ==>
          s.row.Some? && s.row.value.walking && p.cursor == s.row.value.walkCursor)
    && (p.phase.ForwardPage? ==>
          FromSource(s.source, p.phase.page, p.phase.items) && ForwardPageOk(s, p.cursor, p.phase.page))
    && (p.phase.WalkPage? ==>
          FromSource(s.source, p.phase.page, p.phase.items) && WalkPageOk(s, p.cursor, p.phase.page))
  }

  ghost predicate ForwardPageOk(s: State, cursor: Option<Key>, page: Page) {
    page.next.Some? ==> forall k <- s.source :: Upto(k, cursor, page.next.value) ==> k in page.keys || k in s.late
  }

  ghost predicate WalkPageOk(s: State, cursor: Option<Key>, page: Page) {
    && (page.next.Some? ==> forall k <- s.snapshot :: Upto(k, cursor, page.next.value) ==> k in page.keys)
    && (WalkEnds(page, s.limit) ==> forall k <- s.snapshot :: After(k, cursor) ==> k in page.keys)
  }

  ghost predicate Inv(s: State) {
    RowOk(s) && ForwardOk(s) && WalkOk(s) && (Current(s) ==> PollOk(s))
  }

  // ----------------------------------------------------------------- imports

  /** Exactly the mappable items' ids. */
  lemma {:induction false} MappedIds(items: seq<Item>)
    ensures forall id :: id in Mapped(items) <==> exists it <- items :: it.mappable && it.id == id
  {
    if items != [] {
      MappedIds(items[1..]);
      assert items == [items[0]] + items[1..];
    }
  }

  /** A page's commit imports all it can of the page, and forgets nothing. */
  lemma PageIsImported(s: State, page: Page, items: seq<Item>)
    requires FromSource(s.source, page, items)
    ensures forall k <- page.keys :: Got(Insert(s.imported, Mapped(items)), s.source[k])
    ensures s.imported <= Insert(s.imported, Mapped(items))
  {
    MappedIds(items);
    forall k | k in page.keys ensures Got(Insert(s.imported, Mapped(items)), s.source[k]) {
      var i :| 0 <= i < |page.keys| && page.keys[i] == k;
      assert items[i] in items;
    }
  }

  // -------------------------------------------------------------- the commits

  /** A commit without rows, when it is not fenced. */
  lemma EmptyCommit(s: State, u: Update)
    requires RowOk(s) && !Fenced(s, s.generation)
    ensures var r := IngestCommit(s, s.generation, [], u);
            && r.row.Some? && r.row.value.importedTotal == |s.imported| - r.base
            && r == s.(row := r.row, base := r.base)
            && r.row.value == Apply(if s.row.Some? then s.row.value else FreshRow(s.generation), u)
  {
    assert Insert(s.imported, []) == s.imported;
  }

  lemma QuietCommitKeeps(s: State)
    requires Inv(s) && s.poll.Some?
    requires s.poll.value.phase.StartWalk? || s.poll.value.phase.BadWalk? || s.poll.value.phase.Closing?
    ensures Inv(CommitStep(s))
  {
    if Current(s) {
      EmptyCommit(s, UpdateOf(s.poll.value.phase, s.limit));
    }
  }

  lemma RewindKeeps(s: State)
    requires Inv(s) && s.poll.Some?
    requires !s.poll.value.phase.StartWalk? && !s.poll.value.phase.BadWalk? && !s.poll.value.phase.Closing?
    requires !s.poll.value.phase.ForwardPage? && !s.poll.value.phase.WalkPage?
    ensures Inv(CommitStep(s))
  {
    assert Insert(s.imported, []) == s.imported;
  }

  /** A forward page's import and checkpoint, before the poll moves on. */
  lemma ForwardImportKeeps(s: State, page: Page, items: seq<Item>)
    requires RowOk(s) && ForwardOk(s) && WalkOk(s) && Current(s)
    requires FromSource(s.source, page, items) && ForwardPageOk(s, Cursor(s), page)
    ensures var r := IngestCommit(s, s.generation, Mapped(items),
                                  if page.next.Some? then SetCursor(page.next) else NoUpdate);
            RowOk(r) && ForwardOk(r) && WalkOk(r) && (page.next.Some? ==> Cursor(r) == page.next)
  {
    PageIsImported(s, page, items);
    ForwardCovers(s, Cursor(s), page, Insert(s.imported, Mapped(items)));
  }

  lemma ForwardCommitKeeps(s: State)
    requires Inv(s) && s.poll.Some? && s.poll.value.phase.ForwardPage?
    ensures Inv(CommitStep(s))
  {
    if Current(s) {
      ForwardImportKeeps(s, s.poll.value.phase.page, s.poll.value.phase.items);
    }
  }

  lemma ForwardCovers(s: State, cursor: Option<Key>, page: Page, imported: set<Id>)
    requires CoveredTo(s.source, cursor, s.imported, s.late) && s.imported <= imported && ForwardPageOk(s, cursor, page)
    requires forall k <- page.keys :: k in s.source && Got(imported, s.source[k])
    ensures CoveredTo(s.source, if page.next.Some? then page.next else cursor, imported, s.late)
  {
  }

  lemma WalkCommitKeeps(s: State)
    requires Inv(s) && s.poll.Some? && s.poll.value.phase.WalkPage?
    ensures Inv(CommitStep(s))
  {
    if Current(s) {
      var p := s.poll.value;
      PageIsImported(s, p.phase.page, p.phase.items);
      WalkCovers(s, p.cursor, p.phase.page, Insert(s.imported, Mapped(p.phase.items)));
    }
  }

  lemma WalkCovers(s: State, cursor: Option<Key>, page: Page, imported: set<Id>)
    requires CoveredTo(s.snapshot, cursor, s.imported, {}) && s.imported <= imported && WalkPageOk(s, cursor, page)
    requires Within(s.snapshot, s.source)
    requires forall k <- page.keys :: k in s.source && Got(imported, s.source[k])
    ensures page.next.Some? ==> CoveredTo(s.snapshot, page.next, imported, {})
    ensures WalkEnds(page, s.limit) ==> Covered(s.snapshot, imported)
  {
  }

  // --------------------------------------------------------- the other steps

  lemma FetchKeeps(s: State, page: Page, items: seq<Item>)
    requires Inv(s)
    ensures Inv(Next(s, Fetched(page, items)))
  {
  }

  lemma GrowthKeeps(s: State, key: Key, item: Item)
    requires Inv(s)
    ensures Inv(Next(s, SourceAdds(key, item)))
  {
  }

  lemma OtherStepKeeps(s: State, e: Event)
    requires Inv(s) && (e.FetchFailed? || e.PageCap? || e.Raised? || e.Crash?)
    ensures Inv(Next(s, e))
  {
    assert Next(s, e) == s.(poll := Next(s, e).poll);
  }

  lemma WalkStartKeeps(s: State, e: Event)
    requires Inv(s) && (e.Start? || e.Rewalk?)
    ensures Inv(Next(s, e))
  {
    assert Next(s, e) == s.(poll := Next(s, e).poll);
  }

  lemma ConfigKeeps(s: State, source: Source, configured: bool)
    requires Inv(s)
    ensures Inv(Next(s, ConfigChanged(source, configured)))
  {
  }

  lemma StepKeeps(s: State, e: Event)
    requires Inv(s)
    ensures Inv(Next(s, e))
  {
    match e
    case Fetched(page, items) => FetchKeeps(s, page, items);
    case SourceAdds(key, item) => GrowthKeeps(s, key, item);
    case Commit =>
      if s.poll.Some? {
        if s.poll.value.phase.ForwardPage? {
          ForwardCommitKeeps(s);
        } else if s.poll.value.phase.WalkPage? {
          WalkCommitKeeps(s);
        } else if s.poll.value.phase.StartWalk? || s.poll.value.phase.BadWalk? || s.poll.value.phase.Closing? {
          QuietCommitKeeps(s);
        } else {
          RewindKeeps(s);
        }
      }
    case ConfigChanged(source, configured) => ConfigKeeps(s, source, configured);
    case Start => WalkStartKeeps(s, e);
    case Rewalk(_) => WalkStartKeeps(s, e);
    case _ => OtherStepKeeps(s, e);
  }

  lemma {:induction false} RunKeeps(s: State, events: seq<Event>)
    requires Inv(s)
    ensures Inv(Run(s, events))
    decreases |events|
  {
    if events != [] {
      RunKeeps(s, events[..|events| - 1]);
      StepKeeps(Run(s, events[..|events| - 1]), events[|events| - 1]);
    }
  }

  lemma ReachableKeeps(s: State)
    requires Reachable(s)
    ensures Inv(s)
  {
    var s0: State, events: seq<Event> :| Initial(s0) && s == Run(s0, events);
    RunKeeps(s0, events);
  }

  lemma CommitForgetsNothing(s: State)
    ensures s.imported <= Next(s, Commit).imported
  {
    if s.poll.Some? && !Fenced(s, s.poll.value.generation) && Commits(s.poll.value.phase) {
      var p := s.poll.value;
      var r := IngestCommit(s, p.generation, RowsOf(p.phase), UpdateOf(p.phase, s.limit));
      assert r.imported == Insert(s.imported, RowsOf(p.phase)) && Moved(r, p.phase).imported == r.imported;
    }
  }

  /** What is imported stays imported. */
  lemma {:induction false} RunForgetsNothing(s: State, events: seq<Event>)
    ensures s.imported <= Run(s, events).imported
    decreases |events|
  {
    if events != [] {
      var r := Run(s, events[..|events| - 1]);
      RunForgetsNothing(s, events[..|events| - 1]);
      if events[|events| - 1].Commit? {
        CommitForgetsNothing(r);
      } else {
        OthersImportNothing(r, events[|events| - 1]);
      }
    }
  }

  lemma OthersImportNothing(s: State, e: Event)
    requires !e.Commit?
    ensures Next(s, e).imported == s.imported
  {
    if !e.ConfigChanged? {
      OnlyCommitsWrite(s, e);
    }
  }

  // ------------------------------------------------------------ main results

  /** The re-walk that `s` is about to start is still the one in progress. */
  ghost predicate InProgress(t: State, generation: nat) {
    t.generation == generation && t.row.Some? && t.row.value.walking
  }

  lemma SnapshotStep(s: State, e: Event, generation: nat)
    requires Inv(s) && InProgress(s, generation) && Next(s, e).generation == generation
    ensures Next(s, e).snapshot == s.snapshot
  {
    if e.Commit? {
      if s.poll.Some? {
        CommitKeepsSnapshot(s, generation);
      }
    } else if !e.ConfigChanged? {
      OnlyCommitsWrite(s, e);
    }
  }

  lemma OnlyCommitsWrite(s: State, e: Event)
    requires !e.Commit? && !e.ConfigChanged?
    ensures var t := Next(s, e);
            t.snapshot == s.snapshot && t.row == s.row && t.imported == s.imported && t.generation == s.generation
    ensures var t := Next(s, e);
            !e.Start? && t.poll.Some? ==> s.poll.Some? && t.poll.value.generation == s.poll.value.generation
  {
    if e.SourceAdds? {
      assert Next(s, e) == s.(source := Next(s, e).source, late := Next(s, e).late);
    } else {
      OnlyThePollMoves(s, e);
    }
  }

  lemma OnlyThePollMoves(s: State, e: Event)
    requires !e.Commit? && !e.ConfigChanged? && !e.SourceAdds?
    ensures var t := Next(s, e);
            && t == s.(poll := t.poll)
            && (!e.Start? && t.poll.Some? ==> s.poll.Some? && t.poll.value.generation == s.poll.value.generation)
  {
    if e.Fetched? {
      FetchMovesThePoll(s, e.page, e.items);
    }
  }

  lemma FetchMovesThePoll(s: State, page: Page, items: seq<Item>)
    ensures var t := Next(s, Fetched(page, items));
            && t == s.(poll := t.poll)
            && (t.poll.Some? ==> s.poll.Some? && t.poll.value.generation == s.poll.value.generation)
  {
  }

  lemma CommitKeepsSnapshot(s: State, generation: nat)
    requires s.poll.Some? && InProgress(s, generation)
    requires !Fenced(s, s.poll.value.generation) ==> !s.poll.value.phase.StartWalk?
    ensures CommitStep(s).snapshot == s.snapshot
  {
    if !Fenced(s, s.poll.value.generation) && Commits(s.poll.value.phase) {
      CommitOnlyImports(s, s.poll.value.generation, RowsOf(s.poll.value.phase), UpdateOf(s.poll.value.phase, s.limit));
    }
  }

  lemma CommitOnlyImports(s: State, generation: nat, ids: seq<Id>, u: Update)
    ensures var r := IngestCommit(s, generation, ids, u);
            r == s.(row := r.row, imported := r.imported, base := r.base)
  {
  }

  lemma {:induction false} SnapshotStays(s: State, events: seq<Event>, generation: nat)
    requires Inv(s)
    requires forall n {:trigger events[..n]} :: 0 <= n <= |events| ==> InProgress(Run(s, events[..n]), generation)
    ensures Run(s, events).snapshot == s.snapshot && Inv(Run(s, events)) && InProgress(Run(s, events), generation)
    decreases |events|
  {
    assert events[..|events|] == events;
    if events != [] {
      var before := events[..|events| - 1];
      forall n {:trigger before[..n]} | 0 <= n <= |before| ensures InProgress(Run(s, before[..n]), generation) {
        assert before[..n] == events[..n];
      }
      SnapshotStays(s, before, generation);
      SnapshotStep(Run(s, before), events[|events| - 1], generation);
      StepKeeps(Run(s, before), events[|events| - 1]);
    }
  }

  lemma StartRecordsTheSource(s: State)
    requires Inv(s) && s.poll.Some? && s.poll.value.phase.StartWalk? && Current(s)
    ensures Next(s, Commit).snapshot == s.source
  {
  }

  lemma LastPageCovers(s: State, generation: nat)
    requires RowOk(s) && InProgress(s, generation)
    requires var u := Next(s, Commit); u.row.Some? && !u.row.value.walking
    ensures Next(s, Commit).walked == s.snapshot
  {
    if s.poll.Some? && !s.poll.value.phase.WalkPage? {
      WalkGoesOn(s);
    } else if s.poll.Some? {
      WalkPageCovers(s);
    }
  }

  lemma WalkPageCovers(s: State)
    requires RowOk(s) && s.row.Some? && s.row.value.walking && s.poll.Some? && s.poll.value.phase.WalkPage?
    requires var u := CommitStep(s); u.row.Some? && !u.row.value.walking
    ensures CommitStep(s).walked == s.snapshot
  {
  }

  /** Only a re-walk's page can end it. */
  lemma WalkGoesOn(s: State)
    requires RowOk(s) && s.row.Some? && s.row.value.walking && s.poll.Some? && !s.poll.value.phase.WalkPage?
    ensures var u := CommitStep(s); u.row.Some? && u.row.value.walking
  {
    if !Fenced(s, s.poll.value.generation) && Commits(s.poll.value.phase) {
      var u := UpdateOf(s.poll.value.phase, s.limit);
      assert u != EndWalk && Apply(s.row.value, u).walking;
    }
  }

  /** When a re-walk completes, every item the source held when its start was
      recorded is imported or unmappable: for any growth, page caps, restarts
      mid-walk and restarts from a bad cursor in between. */
  lemma CompletedWalkCoversItsStart(s: State, events: seq<Event>)
    requires Reachable(s) && s.poll.Some? && s.poll.value.phase.StartWalk? && Current(s)
    requires forall n {:trigger events[..n]} :: 0 <= n <= |events| ==>
               InProgress(Run(Next(s, Commit), events[..n]), s.generation)
    requires var u := Next(Run(Next(s, Commit), events), Commit); u.row.Some? && !u.row.value.walking
    ensures Covered(s.source, Next(Run(Next(s, Commit), events), Commit).imported)
  {
    ReachableKeeps(s);
    StepKeeps(s, Commit);
    StartRecordsTheSource(s);
    SnapshotStays(Next(s, Commit), events, s.generation);
    var last := Run(Next(s, Commit), events);
    StepKeeps(last, Commit);
    LastPageCovers(last, s.generation);
    assert WalkOk(Next(last, Commit));
  }

  /** No step of a re-walk moves the forward cursor. */
  lemma RewalkLeavesTheForwardCursor(s: State)
    requires Reachable(s) && s.poll.Some?
    requires s.poll.value.phase.StartWalk? || s.poll.value.phase.WalkPage? || s.poll.value.phase.BadWalk?
    ensures Cursor(Next(s, Commit)) == Cursor(s)
  {
    ReachableKeeps(s);
    WalkCommitKeepsCursor(s);
  }

  lemma WalkCommitKeepsCursor(s: State)
    requires RowOk(s) && s.poll.Some?
    requires s.poll.value.phase.StartWalk? || s.poll.value.phase.WalkPage? || s.poll.value.phase.BadWalk?
    ensures Cursor(CommitStep(s)) == Cursor(s)
  {
  }

  lemma ObsoleteStep(s: State, e: Event)
    requires (s.poll.Some? ==> s.poll.value.generation < s.generation) && !e.Start?
    ensures var t := Next(s, e);
            && t.imported == s.imported && (t.row == s.row || t.row.None?) && t.generation >= s.generation
            && (t.poll.Some? ==> s.poll.Some? && t.poll.value.generation == s.poll.value.generation)
  {
    if !e.Commit? && !e.ConfigChanged? {
      OnlyCommitsWrite(s, e);
    } else if e.Commit? && s.poll.Some? {
      assert CommitStep(s) == s.(poll := None);
    }
  }

  /** Once its generation is obsolete, a poll imports nothing and writes no
      checkpoint, however it goes on and whatever else happens. */
  lemma {:induction false} ObsoletePollWritesNothing(s: State, events: seq<Event>)
    requires s.poll.Some? && s.poll.value.generation < s.generation
    requires forall e <- events :: !e.Start?
    ensures var t := Run(s, events);
            && t.imported == s.imported && (t.row == s.row || t.row.None?)
            && t.generation >= s.generation && (t.poll.Some? ==> t.poll.value.generation == s.poll.value.generation)
    decreases |events|
  {
    if events != [] {
      ObsoletePollWritesNothing(s, events[..|events| - 1]);
      ObsoleteStep(Run(s, events[..|events| - 1]), events[|events| - 1]);
    }
  }

  /** From a source that only appends, every mappable item at or before the
      stored forward cursor is imported. */
  lemma AppendOnlySourceHasNoGap(s: State, k: Key)
    requires Reachable(s) && s.late == {} && k in s.source && s.source[k].mappable
    requires s.row.Some? && s.row.value.cursor.Some? && k <= s.row.value.cursor.value
    ensures s.source[k].id in s.imported
  {
    ReachableKeeps(s);
  }

  /** The counter is the number of reports inserted since the state row was created. */
  lemma ImportedTotalIsExact(s: State)
    requires Reachable(s) && s.row.Some?
    ensures s.row.value.importedTotal == |s.imported| - s.base
  {
    ReachableKeeps(s);
  }

  // --------------------------------------------------- where a poll goes on

  /** A forward walk whose cursor the source rejects stores no cursor, and the
      next poll asks its first page without one; after any other error the next
      poll asks with the cursor stored last. Nothing is imported for it, and a
      re-walk in progress stays as it is. */
  lemma RejectedCursorIsDropped(s: State, bad: bool)
    requires Reachable(s) && Current(s) && s.poll.value.phase.Forward?
    ensures var u := Next(Next(s, FetchFailed(bad)), Commit);
            var v := Next(if bad then Next(u, Commit) else u, Start);
            var cursor := if bad then None else Cursor(s);
            && u.row.Some? && u.row.value.cursor == cursor && u.imported == s.imported
            && (s.row.Some? ==> u.row.value.walking == s.row.value.walking
                                && u.row.value.walkCursor == s.row.value.walkCursor)
            && v.row.Some? && v.row.value.cursor == cursor && v.poll == Some(Poll(s.generation, Forward, cursor))
            && v.row.value.failures == (if s.row.Some? then s.row.value.failures else 0) + 1
  {
    ReachableKeeps(s);
    var t := Next(s, FetchFailed(bad));
    var u := Next(t, Commit);
    StepKeeps(s, FetchFailed(bad));
    StepKeeps(t, Commit);
    EmptyStep(t);
    if bad {
      EmptyStep(u);
    }
  }

  /** A commit of no rows, of a poll that is not fenced. */
  lemma EmptyStep(s: State)
    requires RowOk(s) && Current(s)
    requires s.poll.value.phase.BadForward? || s.poll.value.phase.BadWalk? || s.poll.value.phase.Closing?
    ensures var t := Next(s, Commit); var row := if s.row.Some? then s.row.value else FreshRow(s.generation);
            && t.imported == s.imported && t.generation == s.generation && t.configured == s.configured
            && t.row.Some? && t.row.value.generation == s.generation
            && t.row.value.walking == row.walking
            && t.row.value.walkCursor == (if s.poll.value.phase.BadWalk? then None else row.walkCursor)
            && t.row.value.cursor == (if s.poll.value.phase.BadForward? then None else row.cursor)
            && (if s.poll.value.phase.Closing?
                then t.poll.None? && t.row.value.failures == if s.poll.value.phase.ok then 0 else row.failures + 1
                else t.row.value.failures == row.failures && t.poll == Some(s.poll.value.(phase := Closing(false))))
  {
    assert Insert(s.imported, []) == s.imported;
  }

  /** A re-walk whose cursor is rejected stays in progress and starts over from
      the beginning; after any other error it goes on where it was. The forward
      cursor is not touched. */
  lemma RejectedWalkCursorIsDropped(s: State, bad: bool, due: bool)
    requires Reachable(s) && Current(s) && s.poll.value.phase.Walk?
    ensures s.row.Some?
    ensures var u := Next(Next(s, FetchFailed(bad)), Commit);
            var v := Next(if bad then Next(u, Commit) else u, Start);
            var w := Next(Next(v, PageCap), Rewalk(due));
            var cursor := if bad then None else s.row.value.walkCursor;
            && u.row.Some? && u.row.value.walking && u.row.value.walkCursor == cursor
            && u.row.value.cursor == s.row.value.cursor && u.imported == s.imported
            && w.poll == Some(Poll(s.generation, Walk, cursor)) && w.row == v.row
  {
    ReachableKeeps(s);
    var t := Next(s, FetchFailed(bad));
    var u := Next(t, Commit);
    StepKeeps(s, FetchFailed(bad));
    StepKeeps(t, Commit);
    EmptyStep(t);
    if bad {
      EmptyStep(u);
      WalksOn(Next(u, Commit), due);
    } else {
      WalksOn(u, due);
    }
  }

  /** The next poll of a project with a re-walk in progress comes back to it. */
  lemma WalksOn(s: State, due: bool)
    requires s.poll.None? && s.configured && s.row.Some? && s.row.value.generation == s.generation
    requires s.row.value.walking
    ensures var v := Next(s, Start); var w := Next(Next(v, PageCap), Rewalk(due));
            w.poll == Some(Poll(s.generation, Walk, s.row.value.walkCursor)) && w.row == v.row
  {
  }

  /** A forward page, committed: its items are imported and its next cursor is
      stored, if it has one; and the walk is over exactly when it has none or
      the page is short. */
  lemma ForwardPageIsCommitted(s: State)
    requires Reachable(s) && Current(s) && s.poll.value.phase.ForwardPage?
    ensures var page := s.poll.value.phase.page; var t := Next(s, Commit);
            && t.row.Some? && t.row.value.cursor == (if page.next.Some? then page.next else Cursor(s))
            && (forall k <- page.keys :: k in s.source && Got(t.imported, s.source[k])) && s.imported <= t.imported
            && t.poll.Some? && (t.poll.value.phase.Between? <==> page.next.None? || |page.keys| < s.limit)
            && (t.poll.value.phase.Between? || t.poll.value == Poll(s.generation, Forward, page.next))
  {
    ReachableKeeps(s);
    PageIsImported(s, s.poll.value.phase.page, s.poll.value.phase.items);
  }

  /** A page of a re-walk, committed: the re-walk is over exactly when it has no
      next cursor or the page is short, and otherwise goes on at its next cursor. */
  lemma WalkPageIsCommitted(s: State)
    requires Reachable(s) && Current(s) && s.poll.value.phase.WalkPage?
    ensures var page := s.poll.value.phase.page; var t := Next(s, Commit);
            && t.row.Some? && t.poll.Some? && s.imported <= t.imported && Cursor(t) == Cursor(s)
            && (forall k <- page.keys :: k in s.source && Got(t.imported, s.source[k]))
            && if page.next.None? || |page.keys| < s.limit
               then !t.row.value.walking && t.poll.value.phase == Closing(true) && t.walked == s.snapshot
               else t.row.value.walking && t.row.value.walkCursor == page.next
                    && t.poll.value == Poll(s.generation, Walk, page.next)
  {
    ReachableKeeps(s);
    PageIsImported(s, s.poll.value.phase.page, s.poll.value.phase.items);
  }

  /** After its forward walk a poll goes on with the re-walk in progress, at its
      cursor; or records the start of one that is due; or does neither. */
  lemma RewalkGoesOnIff(s: State, due: bool)
    requires Reachable(s) && Current(s) && s.poll.value.phase.Between?
    ensures var t := Next(s, Rewalk(due)); var u := Next(t, Commit);
            var walking := s.row.Some? && s.row.value.walking;
            && (walking ==> t.poll == Some(Poll(s.generation, Walk, s.row.value.walkCursor)))
            && (!walking && due ==>
                  && u.poll == Some(Poll(s.generation, Walk, None)) && u.row.Some? && u.row.value.walking
                  && u.row.value.walkCursor.None? && Cursor(u) == Cursor(s) && u.snapshot == s.source)
            && (!walking && !due ==> u.poll.None? && u.row.Some? && !u.row.value.walking && u.row.value.failures == 0)
  {
    ReachableKeeps(s);
    assert Insert(s.imported, []) == s.imported;
  }

  /** Out of pages, a walk stops where it is and is no failure: the cursors stay
      stored, a re-walk stays in progress, and the poll ends well; a raised
      exception also leaves them, and is counted as a failure. */
  lemma StoppedWalkKeepsItsCursor(s: State, raised: bool)
    requires Reachable(s) && Current(s) && (s.poll.value.phase.Forward? || s.poll.value.phase.Walk?)
    ensures var u := Next(s, if raised then Raised else PageCap);
            var t := Next(if u.poll.value.phase.Between? then Next(u, Rewalk(false)) else u, Commit);
            var walking := s.row.Some? && s.row.value.walking;
            && u.poll.Some? && u.row == s.row && u.imported == s.imported
            && (raised || s.poll.value.phase.Walk? || !walking ==>
                  && t.poll.None? && t.row.Some? && Cursor(t) == Cursor(s) && t.imported == s.imported
                  && t.row.value.walking == walking && (walking ==> t.row.value.walkCursor == s.row.value.walkCursor)
                  && t.row.value.failures == (if !raised then 0
                                              else if s.row.Some? then s.row.value.failures + 1 else 1))
            && (!raised && s.poll.value.phase.Forward? && walking ==>
                  Next(u, Rewalk(false)).poll == Some(Poll(s.generation, Walk, s.row.value.walkCursor)))
  {
    ReachableKeeps(s);
    var u := Next(s, if raised then Raised else PageCap);
    if u.poll.value.phase.Closing? {
      EmptyStep(u);
    } else if !(s.row.Some? && s.row.value.walking) {
      EmptyStep(Next(u, Rewalk(false)));
    }
  }

  // -------------------------------------------------- every request has a page

  lemma {:induction false} LeastKey(keys: set<Key>) returns (least: Key)
    requires exists k: Key :: k in keys
    ensures least in keys && forall k <- keys :: least <= k
  {
    var k: Key :| k in keys;
    if j: Key :| j in keys && j != k {
      assert j in keys - {k};
      var rest := LeastKey(keys - {k});
      least := if k < rest then k else rest;
      assert forall j <- keys :: j == k || j in keys - {k};
    } else {
      least := k;
    }
  }

  lemma {:induction false} FirstKeys(keys: set<Key>, limit: nat) returns (page: seq<Key>)
    ensures |page| <= limit && Ascending(page)
    ensures forall k <- page :: k in keys
    ensures |page| < limit ==> forall k <- keys :: k in page
    ensures page != [] ==> forall k <- keys :: k <= page[|page| - 1] ==> k in page
  {
    if limit == 0 || forall k: Key :: k !in keys {
      page := [];
    } else {
      var least := LeastKey(keys);
      var rest := FirstKeys(keys - {least}, limit - 1);
      page := [least] + rest;
      forall j | 0 <= j < |rest| ensures least < rest[j] {
        assert rest[j] in rest && rest[j] in keys - {least};
      }
      forall k | k in keys && (|page| < limit || k <= page[|page| - 1]) ensures k in page {
        if k != least {
          assert k in keys - {least};
        }
      }
    }
  }

  /** The source can always answer: the page is never assumed away. */
  lemma PageExists(source: Source, cursor: Option<Key>, limit: nat) returns (page: Page, items: seq<Item>)
    requires limit >= 1
    ensures IsPage(source, cursor, limit, page, items)
  {
    var after := set k | k in source && After(k, cursor);
    var keys := FirstKeys(after, limit);
    page := Page(keys, if keys == [] then None else Some(keys[|keys| - 1]));
    assert forall i :: 0 <= i < |keys| ==> keys[i] in keys && keys[i] in after;
    items := seq(|keys|, i requires 0 <= i < |keys| => source[keys[i]]);
  }
}
