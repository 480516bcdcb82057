/** Which fix analysis produced a proposal: the stage's two writes
    (pipeline/fix_proposer.py) and the two lookups that go back from the
    second to the first (sync/results.py `_fix_analysis`, db.py
    `fix_analysis_for_proposal`). */
module FixAnalysis {
  import opened Common

  type Stamp = int
  type RunId = int

  /** An `analyses` row; `run` is the fix run that wrote it, unknown to the code. */
  datatype Analysis = Analysis(created: Stamp, fix: bool, completed: bool, run: RunId)
  datatype Proposal = Proposal(created: Stamp, run: RunId)

  /** One report's rows, newest first; `writing` is the run that holds the
      write lock between its two writes. */
  datatype State = State(clock: Stamp, analyses: seq<Analysis>, proposals: seq<Proposal>, writing: Option<RunId>)

  datatype Event =
    | WritesAnalysis(run: RunId)
    | WritesProposal
    | OtherRow(fix: bool, run: RunId)    // a failed fix row, or a row of another phase
    | ClockMoves                         // a stamp given to some other table
    | Crash

  function Next(s: State, e: Event): State {
    match e
    case WritesAnalysis(run) =>
      if s.writing.Some? then s
      else s.(clock := s.clock + 1, analyses := [Analysis(s.clock + 1, true, true, run)] + s.analyses,
              writing := Some(run))
    case WritesProposal =>
      if s.writing.None? then s
      else s.(clock := s.clock + 1, proposals := [Proposal(s.clock + 1, s.writing.value)] + s.proposals,
              writing := None)
    case OtherRow(fix, run) =>
      s.(clock := s.clock + 1, analyses := [Analysis(s.clock + 1, fix, !fix, run)] + s.analyses)
    case ClockMoves => s.(clock := s.clock + 1)
    case Crash => s.(writing := None)
  }

  function Run(s: State, events: seq<Event>): State
    decreases |events|
  {
    if events == [] then s else Next(Run(s, events[..|events| - 1]), events[|events| - 1])
  }

  predicate Initial(s: State) {
    s.analyses == [] && s.proposals == [] && s.writing.None?
  }

  // ---------------------------------------------------------------- lookups

  predicate Candidate(a: Analysis, created: Stamp) {
    a.fix && a.completed && a.created <= created
  }

  /** The first candidate of a newest-first list. */
  function FirstCandidate(rows: seq<Analysis>, created: Stamp): Option<Analysis> {
    if rows == [] then None
    else if Candidate(rows[0], created) then Some(rows[0])
    else FirstCandidate(rows[1..], created)
  }

  /** `_fix_analysis`. */
  method SearchAnalyses(rows: seq<Analysis>, proposal: Option<Proposal>) returns (found: Option<Analysis>)
    ensures found == if proposal.None? then None else FirstCandidate(rows, proposal.value.created)
  {
    if proposal.None? {
      return None;
    }
    var i := 0;
    while i < |rows|
      invariant 0 <= i <= |rows|
      invariant FirstCandidate(rows, proposal.value.created) == FirstCandidate(rows[i..], proposal.value.created)
    {
      if rows[i].fix && rows[i].completed && rows[i].created <= proposal.value.created {
        return Some(rows[i]);
      }
      i := i + 1;
    }
    return None;
  }

  /** What `ORDER BY created_at DESC LIMIT 1` selects, whatever the order of the rows. */
  ghost predicate NewestCandidate(rows: seq<Analysis>, created: Stamp, a: Analysis) {
    a in rows && Candidate(a, created) && forall b <- rows :: Candidate(b, created) ==> b.created <= a.created
  }

  ghost predicate Descending(rows: seq<Analysis>) {
    forall i, j :: 0 <= i < j < |rows| ==> rows[i].created > rows[j].created
  }

  /** On a newest-first list the search and the query find the same row. */
  lemma {:induction false} SearchFindsTheNewest(rows: seq<Analysis>, created: Stamp)
    requires Descending(rows)
    ensures var found := FirstCandidate(rows, created);
            && (found.None? <==> forall a <- rows :: !Candidate(a, created))
            && (forall a :: NewestCandidate(rows, created, a) <==> found == Some(a))
  {
    if rows != [] {
      var rest := rows[1..];
      assert rows == [rows[0]] + rest;
      assert Descending(rest);
      SearchFindsTheNewest(rest, created);
      assert forall b <- rest :: b.created < rows[0].created;
      if !Candidate(rows[0], created) {
        assert forall a :: NewestCandidate(rows, created, a) <==> NewestCandidate(rest, created, a);
      }
    }
  }

  // -------------------------------------------------------------- the result

  ghost predicate Inv(s: State) {
    && Descending(s.analyses)
    && (forall a <- s.analyses :: a.created <= s.clock)
    && (forall p <- s.proposals :: p.created <= s.clock && Produced(s.analyses, p.created, p.run))
    && (s.writing.Some? ==> Produced(s.analyses, s.clock, s.writing.value))
  }

  /** The newest candidate up to `created` is the run's. */
  predicate Produced(rows: seq<Analysis>, created: Stamp, run: RunId) {
    FirstCandidate(rows, created).Some? && FirstCandidate(rows, created).value.run == run
  }

  /** A newer row that is no candidate, or is too new to be one, is passed over. */
  lemma NewRowIsPassedOver(a: Analysis, rows: seq<Analysis>, created: Stamp)
    requires !Candidate(a, created)
    ensures FirstCandidate([a] + rows, created) == FirstCandidate(rows, created)
  {
    assert ([a] + rows)[1..] == rows;
  }

  /** Moving the limit past every row's stamp changes nothing. */
  lemma {:induction false} LaterLimit(rows: seq<Analysis>, low: Stamp, high: Stamp)
    requires low <= high && forall a <- rows :: a.created <= low
    ensures FirstCandidate(rows, low) == FirstCandidate(rows, high)
  {
    if rows != [] && !Candidate(rows[0], low) {
      LaterLimit(rows[1..], low, high);
    }
  }

  lemma StepKeeps(s: State, e: Event)
    requires Inv(s)
    ensures Inv(Next(s, e))
  {
    match e
    case WritesAnalysis(run) => AnalysisKeeps(s, run);
    case OtherRow(fix, run) => OtherRowKeeps(s, fix, run);
    case _ => OtherStepKeeps(s, e);
  }

  lemma AnalysisKeeps(s: State, run: RunId)
    requires Inv(s)
    ensures Inv(Next(s, WritesAnalysis(run)))
  {
    if s.writing.None? {
      RowKeeps(s, Analysis(s.clock + 1, true, true, run));
    }
  }

  lemma OtherRowKeeps(s: State, fix: bool, run: RunId)
    requires Inv(s)
    ensures Inv(Next(s, OtherRow(fix, run)))
  {
    RowKeeps(s, Analysis(s.clock + 1, fix, !fix, run));
  }

  lemma OtherStepKeeps(s: State, e: Event)
    requires Inv(s) && (e.WritesProposal? || e.ClockMoves? || e.Crash?)
    ensures Inv(Next(s, e))
  {
    LaterLimit(s.analyses, s.clock, Next(s, e).clock);
  }

  lemma RowKeeps(s: State, a: Analysis)
    requires Inv(s) && a.created == s.clock + 1 && (a.fix && a.completed ==> s.writing.None?)
    ensures Inv(s.(clock := s.clock + 1, analyses := [a] + s.analyses))
    ensures a.fix && a.completed ==> Inv(s.(clock := s.clock + 1, analyses := [a] + s.analyses, writing := Some(a.run)))
  {
    var rows := [a] + s.analyses;
    assert forall b <- s.analyses :: b.created < a.created;
    assert Descending(rows);
    forall p | p in s.proposals ensures FirstCandidate(rows, p.created) == FirstCandidate(s.analyses, p.created) {
      NewRowIsPassedOver(a, s.analyses, p.created);
    }
    LaterLimit(s.analyses, s.clock, a.created);
    if !(a.fix && a.completed) {
      NewRowIsPassedOver(a, s.analyses, a.created);
    }
  }

  lemma {:induction false} RunKeeps(s: State, events: seq<Event>)
    requires Inv(s)
    ensures Inv(Run(s, events))
    decreases |events|
  {
    if events != [] {
      RunKeeps(s, events[..|events| - 1]);
      StepKeeps(Run(s, events[..|events| - 1]), events[|events| - 1]);
    }
  }

  /** Over every interleaving of fix runs, crashes between the two writes
      included: the search and the query both return, for every proposal, the
      analysis written by the run that wrote the proposal. */
  lemma BothLookupsFindTheSameRun(s0: State, events: seq<Event>, p: Proposal)
    requires Initial(s0) && p in Run(s0, events).proposals
    ensures var rows := Run(s0, events).analyses;
            && FirstCandidate(rows, p.created).Some? && FirstCandidate(rows, p.created).value.run == p.run
            && (exists a :: NewestCandidate(rows, p.created, a))
            && (forall a :: NewestCandidate(rows, p.created, a) ==>
                  a == FirstCandidate(rows, p.created).value && a.run == p.run)
  {
    RunKeeps(s0, events);
    var s := Run(s0, events);
    SearchFindsTheNewest(s.analyses, p.created);
    assert Produced(s.analyses, p.created, p.run);
    assert NewestCandidate(s.analyses, p.created, FirstCandidate(s.analyses, p.created).value);
  }
}
