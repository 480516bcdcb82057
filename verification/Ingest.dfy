/** The ingest walks of one project (ingest/poller.py, `ingest_commit`): a
    forward walk and a reconciliation re-walk over one source that only grows,
    each with its own cursor, fenced by the project's ingest generation.

    A poll's steps are its fetches and its commits. Between any two of them the
    source may grow, the configuration may change, the walk may reach its page
    cap, and the process may die. */
module Ingest {
  import opened Common

  type Id = string

  /** An item's place in the source's order. Only the order matters, so the
      finitely many items of a run can be numbered. */
  type Key = int

  /** `mappable`: the importer can turn it into a report. */
  datatype Item = Item(id: Id, mappable: bool)

  type Source = map<Key, Item>

  datatype Page = Page(keys: seq<Key>, next: Option<Key>)

  /** The `ingest_state` row; `walking` is a recorded re-walk start. */
  datatype Row = Row(
    generation: nat, cursor: Option<Key>, walking: bool, walkCursor: Option<Key>,
    importedTotal: int, failures: nat)

  datatype Phase =
    | Forward
    | ForwardPage(page: Page, items: seq<Item>)
    | BadForward
    | Between                                     // the forward walk is over
    | StartWalk
    | Walk
    | WalkPage(page: Page, items: seq<Item>)
    | BadWalk
    | Closing(ok: bool)

  datatype Poll = Poll(generation: nat, phase: Phase, cursor: Option<Key>)

  datatype State = State(
    limit: nat,                  // page size
    generation: nat,
    configured: bool,            // the project exists and has a source
    row: Option<Row>,
    imported: set<Id>,           // external ids of the project's reports
    poll: Option<Poll>,
    source: Source,
    snapshot: Source,            // the source when the current re-walk's start was recorded
    walked: Source,              // the snapshot of the last completed re-walk
    late: set<Key>,              // keys that were not appended at the end
    base: int)                   // reports when the state row was created

  datatype Event =
    | Start
    | Fetched(page: Page, items: seq<Item>)
    | FetchFailed(badCursor: bool)
    | Commit
    | PageCap
    | Rewalk(due: bool)
    | Raised
    | Crash
    | SourceAdds(key: Key, item: Item)
    | ConfigChanged(source: Source, configured: bool)

  // ------------------------------------------------------------------- pages

  predicate After(k: Key, cursor: Option<Key>) {
    cursor.None? || cursor.value < k
  }

  /** Every key past the cursor, up to and including `last`. */
  predicate Upto(k: Key, cursor: Option<Key>, last: Key) {
    After(k, cursor) && k <= last
  }

  predicate Ascending(keys: seq<Key>) {
    forall i, j :: 0 <= i < j < |keys| ==> keys[i] < keys[j]
  }

  /** The first `limit` keys past the cursor, in order; the next cursor is the
      last of them. A short page, or one without a next cursor, has every key
      past the cursor. */
  ghost predicate IsPage(source: Source, cursor: Option<Key>, limit: nat, page: Page, items: seq<Item>) {
    && |page.keys| <= limit && Ascending(page.keys) && |items| == |page.keys|
    && (forall i :: 0 <= i < |page.keys| ==>
          page.keys[i] in source && items[i] == source[page.keys[i]] && After(page.keys[i], cursor))
    && (page.next.Some? ==> page.keys != [] && page.next.value == page.keys[|page.keys| - 1])
    && (page.next.Some? ==> forall k <- source :: Upto(k, cursor, page.next.value) ==> k in page.keys)
    && (page.next.None? || |page.keys| < limit ==> forall k <- source :: After(k, cursor) ==> k in page.keys)
  }

  /** `_walk_ends`. */
  predicate WalkEnds(page: Page, limit: nat) {
    page.next.None? || |page.keys| < limit
  }

  // ------------------------------------------------------------------ commit

  /** The checkpoint part of one commit. */
  datatype Update =
    | NoUpdate
    | SetCursor(cursor: Option<Key>)
    | BeginWalk
    | SetWalk(cursor: Option<Key>)
    | EndWalk
    | Succeeded
    | CountFailure

  function Apply(row: Row, u: Update): Row {
    match u
    case NoUpdate => row
    case SetCursor(c) => row.(cursor := c)
    case BeginWalk => row.(walking := true, walkCursor := None)
    case SetWalk(c) => row.(walkCursor := c)
    case EndWalk => row.(walking := false, walkCursor := None)
    case Succeeded => row.(failures := 0)
    case CountFailure => row.(failures := row.failures + 1)
  }

  function Mapped(items: seq<Item>): seq<Id> {
    if items == [] then [] else (if items[0].mappable then [items[0].id] else []) + Mapped(items[1..])
  }

  /** Inserts in order; an external id already there is skipped. */
  function Insert(imported: set<Id>, ids: seq<Id>): set<Id> {
    imported + set i <- ids
  }

  function FreshRow(generation: nat): Row {
    Row(generation, None, false, None, 0, 0)
  }

  predicate Fenced(s: State, generation: nat) {
    !s.configured || s.generation != generation
  }

  /** `ingest_commit`: imports and checkpoint together, or nothing when fenced. */
  function IngestCommit(s: State, generation: nat, ids: seq<Id>, u: Update): State {
    if Fenced(s, generation) then s
    else
      var kept := s.row.Some? && s.row.value.generation == generation;
      var row := if kept then s.row.value else FreshRow(generation);
      var imported := Insert(s.imported, ids);
      s.(imported := imported,
         row := Some(Apply(row, u).(importedTotal := row.importedTotal + |imported| - |s.imported|)),
         base := if kept then s.base else |s.imported|)
  }

  // ------------------------------------------------------------------- steps

  function PollTo(s: State, phase: Phase): State
    requires s.poll.Some?
  {
    s.(poll := Some(s.poll.value.(phase := phase)))
  }

  function PollAt(s: State, phase: Phase, cursor: Option<Key>): State
    requires s.poll.Some?
  {
    s.(poll := Some(s.poll.value.(phase := phase, cursor := cursor)))
  }

  /** Phases whose next step is a commit. */
  predicate Commits(phase: Phase) {
    phase.ForwardPage? || phase.BadForward? || phase.StartWalk? || phase.WalkPage? || phase.BadWalk? || phase.Closing?
  }

  function RowsOf(phase: Phase): seq<Id> {
    if phase.ForwardPage? || phase.WalkPage? then Mapped(phase.items) else []
  }

  function UpdateOf(phase: Phase, limit: nat): Update
    requires Commits(phase)
  {
    match phase
    case ForwardPage(page, _) => if page.next.Some? then SetCursor(page.next) else NoUpdate
    case BadForward => SetCursor(None)
    case StartWalk => BeginWalk
    case WalkPage(page, _) => if WalkEnds(page, limit) then EndWalk else SetWalk(page.next)
    case BadWalk => SetWalk(None)
    case Closing(ok) => if ok then Succeeded else CountFailure
  }

  /** Where the poll goes after a commit that was not fenced. */
  function Moved(s: State, phase: Phase): State
    requires s.poll.Some? && Commits(phase)
  {
    match phase
    case ForwardPage(page, _) => if WalkEnds(page, s.limit) then PollTo(s, Between) else PollAt(s, Forward, page.next)
    case BadForward => PollTo(s, Closing(false))
    case StartWalk => PollAt(s, Walk, None).(snapshot := s.source)
    case WalkPage(page, _) =>
      if WalkEnds(page, s.limit) then PollTo(s, Closing(true)).(walked := s.snapshot) else PollAt(s, Walk, page.next)
    case BadWalk => PollTo(s, Closing(false))
    case Closing(_) => s.(poll := None)
  }

  /** A commit, and the poll's next phase; a fenced commit ends the poll. */
  function CommitStep(s: State): State
    requires s.poll.Some?
  {
    var p := s.poll.value;
    if Fenced(s, p.generation) then s.(poll := None)
    else if !Commits(p.phase) then s
    else Moved(IngestCommit(s, p.generation, RowsOf(p.phase), UpdateOf(p.phase, s.limit)), p.phase)
  }

  /** A poll whose generation is obsolete walks another source: any page may come back. */
  ghost predicate Plausible(s: State, p: Poll, page: Page, items: seq<Item>) {
    p.generation == s.generation && s.configured ==> IsPage(s.source, p.cursor, s.limit, page, items)
  }

  ghost function Next(s: State, e: Event): State {
    match e
    case Start =>
      if s.poll.Some? || !s.configured then s
      else
        var cursor := if s.row.Some? && s.row.value.generation == s.generation then s.row.value.cursor else None;
        s.(poll := Some(Poll(s.generation, Forward, cursor)))
    case Fetched(page, items) =>
      if s.poll.None? || !Plausible(s, s.poll.value, page, items) then s
      else if s.poll.value.phase.Forward? then PollTo(s, ForwardPage(page, items))
      else if s.poll.value.phase.Walk? then PollTo(s, WalkPage(page, items))
      else s
    case FetchFailed(bad) =>
      if s.poll.None? then s
      else if s.poll.value.phase.Forward? then PollTo(s, if bad then BadForward else Closing(false))
      else if s.poll.value.phase.Walk? then PollTo(s, if bad then BadWalk else Closing(false))
      else s
    case Commit => if s.poll.None? then s else CommitStep(s)
    case PageCap =>
      if s.poll.None? then s
      else if s.poll.value.phase.Forward? then PollTo(s, Between)
      else if s.poll.value.phase.Walk? then PollTo(s, Closing(true))
      else s
    case Rewalk(due) =>
      if s.poll.None? || !s.poll.value.phase.Between? then s
      else if s.row.Some? && s.row.value.walking then PollAt(s, Walk, s.row.value.walkCursor)
      else if due then PollTo(s, StartWalk)
      else PollTo(s, Closing(true))
    case Raised => if s.poll.None? then s else PollTo(s, Closing(false))
    case Crash => s.(poll := None)
    case SourceAdds(key, item) =>
      if key in s.source then s
      else s.(source := s.source[key := item],
              late := if exists k :: k in s.source && key < k then s.late + {key} else s.late)
    case ConfigChanged(source, configured) =>
      s.(generation := s.generation + 1, configured := configured, row := None, source := source,
         snapshot := map[], walked := map[], late := {})
  }

  ghost function Run(s: State, events: seq<Event>): State
    decreases |events|
  {
    if events == [] then s else Next(Run(s, events[..|events| - 1]), events[|events| - 1])
  }

  ghost predicate Initial(s: State) {
    s.limit >= 1 && s.row.None? && s.poll.None? && s.snapshot == map[] && s.walked == map[] && s.late == {}
  }

  ghost predicate Reachable(s: State) {
    exists s0: State, events: seq<Event> :: Initial(s0) && s == Run(s0, events)
  }
}
