/** The results push of one report (sync/triage_sync.py `_push`,
    `triage_result_stage`): a revision and fingerprint protocol against a
    store that keeps the newest revision it was given.

    A PUT may be lost, and may be delivered late and more than once; its
    answer may be lost; the process may die between any two steps. */
module ResultsPush {
  import opened Common
  import opened ResultsContent

  datatype Payload = Payload(core: Core, revision: int)

  /** The `triage_results` row. */
  datatype Row = Row(fingerprint: Core, revision: int, payload: Payload, acked: Option<Core>, failed: Option<Core>)

  /** A PUT being made: its answer is None until the store has seen it. */
  datatype Put = Put(fingerprint: Core, payload: Payload, sent: bool, answer: Option<Answer>)

  datatype Answer = Applied | NotApplied(storedRevision: int)

  datatype State = State(
    content: Content,
    clock: Stamp,               // the last stamp given to any row
    built: Option<Core>,        // the payload a tick has built and not yet handled
    row: Option<Row>,
    flight: Option<Put>,
    remote: Option<Payload>,
    foreign: Option<Payload>,   // what the store held before this ledger existed
    sent: set<Payload>,         // every payload ever put on the network
    staged: seq<Payload>,       // every payload ever staged, in order
    stale: bool)                // the last stage reused the acknowledged fingerprint, not acknowledged since

  datatype Event =
    | Stamped(content: Content)
    | HeadMoves(head: Option<string>)
    | PrChecked
    | RetryReset
    | Build
    | Tick(epoch: int)
    | Send
    | Arrive
    | Late(payload: Payload)
    | Answered
    | Rejected(status: int)
    | Lost
    | Crash

  /** A write that the payload may show. */
  predicate ChangesContent(e: Event) {
    e.Stamped? || e.HeadMoves? || e.PrChecked? || e.RetryReset?
  }

  function NextRevision(row: Option<Row>, epoch: int): int {
    var last := if row.Some? then row.value.revision else -1;
    if last + 1 >= epoch then last + 1 else epoch
  }

  /** `triage_result_stage`: the acknowledged fingerprint is kept. */
  function Stage(s: State, core: Core, epoch: int): State {
    var revision := NextRevision(s.row, epoch);
    var payload := Payload(core, revision);
    var acked := if s.row.Some? then s.row.value.acked else None;
    s.(row := Some(Row(core, revision, payload, acked, None)),
       flight := Some(Put(core, payload, false, None)), built := None,
       staged := s.staged + [payload],
       stale := acked == Some(core))
  }

  /** The store: newer revision wins. */
  function Receive(remote: Option<Payload>, p: Payload): (Option<Payload>, Answer) {
    if remote.Some? && p.revision <= remote.value.revision then (remote, NotApplied(remote.value.revision))
    else (Some(p), Applied)
  }

  /** What a 200 answer writes. */
  function Acknowledge(row: Row, put: Put, answer: Answer): Row {
    row.(acked := Some(put.fingerprint),
         revision := if answer.NotApplied? && answer.storedRevision >= put.payload.revision
                     then answer.storedRevision else row.revision)
  }

  function Next(s: State, e: Event): State {
    match e
    case Stamped(content) =>
      if Newest(content) > s.clock && content.head == s.content.head
      then s.(content := content, clock := Newest(content)) else s
    case HeadMoves(head) => s.(content := s.content.(head := head))
    case PrChecked => s.(content := PrRead(s.content))
    case RetryReset => s.(content := s.content.(failures := []))
    case Build => if s.flight.Some? then s else s.(built := Some(CoreOf(s.content)))
    case Tick(epoch) =>
      if s.flight.Some? || s.built.None? then s
      else
        var core := s.built.value;
        if s.row.Some? && s.row.value.fingerprint == core then
          if s.row.value.acked == Some(core) || s.row.value.failed == Some(core) then s.(built := None)
          else s.(flight := Some(Put(core, s.row.value.payload, false, None)), built := None)
        else Stage(s, core, epoch)
    case Send =>
      if s.flight.None? then s
      else s.(flight := Some(s.flight.value.(sent := true)), sent := s.sent + {s.flight.value.payload})
    case Arrive =>
      if s.flight.None? || !s.flight.value.sent || s.flight.value.answer.Some? then s
      else
        var (remote, answer) := Receive(s.remote, s.flight.value.payload);
        s.(remote := remote, flight := Some(s.flight.value.(answer := Some(answer))))
    case Late(p) => if p in s.sent then s.(remote := Receive(s.remote, p).0) else s
    case Answered =>
      if s.flight.None? || s.flight.value.answer.None? || s.row.None? then s
      else s.(row := Some(Acknowledge(s.row.value, s.flight.value, s.flight.value.answer.value)), flight := None,
              stale := false)
    case Rejected(status) =>
      if s.flight.None? || !s.flight.value.sent || s.row.None? then s
      else if status == 400 || status == 404 || status == 413 then
        s.(row := Some(s.row.value.(failed := Some(s.flight.value.fingerprint))), flight := None)
      else s.(flight := None)
    case Lost => s.(flight := None)
    case Crash => s.(flight := None, built := None)
  }

  function Run(s: State, events: seq<Event>): State
    decreases |events|
  {
    if events == [] then s else Next(Run(s, events[..|events| - 1]), events[|events| - 1])
  }

  /** An empty ledger. `remote` is what an earlier, lost ledger left behind, if any. */
  predicate Initial(s: State) {
    && Newest(s.content) <= s.clock && s.built.None? && s.row.None? && s.flight.None?
    && s.foreign == s.remote && s.sent == {} && s.staged == [] && !s.stale
  }

  ghost predicate Reachable(s: State) {
    exists s0: State, events: seq<Event> :: Initial(s0) && s == Run(s0, events)
  }

  // ---------------------------------------------------------------- invariant

  /** The store holds the staged payload, or the revision it held already was not older. */
  predicate Holds(s: State, p: Payload) {
    s.remote == Some(p) || (s.foreign.Some? && s.remote == s.foreign && s.foreign.value.revision >= p.revision)
  }

  /** The answer to the PUT in flight still describes the store. */
  predicate AnswerOk(s: State, put: Put)
    requires put.answer.Some?
  {
    && put.sent
    && Holds(s, put.payload)
    && (put.answer.value.NotApplied? ==> s.remote.Some? && put.answer.value.storedRevision == s.remote.value.revision
                                         && put.answer.value.storedRevision >= put.payload.revision)
    && (put.answer.value.Applied? ==> s.remote == Some(put.payload))
  }

  ghost predicate Inv(s: State) {
    && (forall i, j :: 0 <= i < j < |s.staged| ==> s.staged[i].revision < s.staged[j].revision)
    && (forall i :: 0 <= i < |s.staged| - 1 ==> s.staged[i].core != s.staged[i + 1].core)
    && (forall p <- s.sent :: p in s.staged)
    && (s.row.None? ==> s.staged == [] && s.flight.None?)
    && (s.row.Some? ==>
          && |s.staged| > 0 && s.row.value.payload == s.staged[|s.staged| - 1]
          && s.row.value.fingerprint == s.row.value.payload.core
          && s.row.value.payload.revision <= s.row.value.revision)
    && (s.flight.Some? ==>
          && s.flight.value.payload == s.row.value.payload && s.flight.value.fingerprint == s.row.value.fingerprint
          && (s.flight.value.answer.Some? ==> AnswerOk(s, s.flight.value)))
    && (s.remote.Some? ==> s.remote == s.foreign || s.remote.value in s.staged)
    && (s.foreign.Some? ==> s.remote.Some? && s.remote.value.revision >= s.foreign.value.revision)
    && (s.row.Some? && s.row.value.acked == Some(s.row.value.fingerprint) && !s.stale ==>
          Holds(s, s.row.value.payload) && s.remote.value.revision <= s.row.value.revision)
  }

  /** A staged payload is older than the last one, or is it. */
  lemma LastIsNewest(s: State, p: Payload)
    requires Inv(s) && p in s.staged
    ensures s.row.Some? && p.revision <= s.row.value.payload.revision
    ensures p.revision == s.row.value.payload.revision ==> p == s.row.value.payload
  {
  }

  lemma StageKeeps(s: State, core: Core, epoch: int)
    requires Inv(s) && s.flight.None? && !(s.row.Some? && s.row.value.fingerprint == core)
    ensures Inv(Stage(s, core, epoch))
    ensures forall p <- s.staged :: p.revision < NextRevision(s.row, epoch)
  {
    forall p <- s.staged ensures p.revision < NextRevision(s.row, epoch) {
      LastIsNewest(s, p);
    }
    StagedGrows(s.staged, Payload(core, NextRevision(s.row, epoch)));
  }

  lemma StagedGrows(staged: seq<Payload>, p: Payload)
    requires forall i, j :: 0 <= i < j < |staged| ==> staged[i].revision < staged[j].revision
    requires forall i :: 0 <= i < |staged| - 1 ==> staged[i].core != staged[i + 1].core
    requires forall q <- staged :: q.revision < p.revision
    requires staged != [] ==> staged[|staged| - 1].core != p.core
    ensures var after := staged + [p];
            && (forall i, j :: 0 <= i < j < |after| ==> after[i].revision < after[j].revision)
            && (forall i :: 0 <= i < |after| - 1 ==> after[i].core != after[i + 1].core)
  {
  }

  lemma ArriveKeeps(s: State)
    requires Inv(s)
    ensures Inv(Next(s, Arrive))
  {
    if s.flight.Some? && s.remote.Some? && s.remote.value in s.staged {
      LastIsNewest(s, s.remote.value);
    }
  }

  lemma LateKeeps(s: State, p: Payload)
    requires Inv(s)
    ensures Inv(Next(s, Late(p)))
  {
    if p in s.sent {
      LastIsNewest(s, p);
    }
  }

  lemma TickKeeps(s: State, epoch: int)
    requires Inv(s)
    ensures Inv(Next(s, Tick(epoch)))
  {
    if s.flight.None? && s.built.Some? {
      if s.row.Some? && s.row.value.fingerprint == s.built.value {
        ResendKeeps(s);
      } else {
        StageKeeps(s, s.built.value, epoch);
      }
    }
  }

  /** The staged payload again, or nothing. */
  lemma ResendKeeps(s: State)
    requires Inv(s) && s.row.Some?
    ensures Inv(s.(built := None))
    ensures Inv(s.(flight := Some(Put(s.row.value.fingerprint, s.row.value.payload, false, None)), built := None))
  {
  }

  lemma ContentKeeps(s: State, e: Event)
    requires Inv(s) && (ChangesContent(e) || e.Build?)
    ensures Inv(Next(s, e))
  {
    var t := Next(s, e);
    assert t == s.(content := t.content, clock := t.clock, built := t.built);
  }

  lemma StepKeeps(s: State, e: Event)
    requires Inv(s)
    ensures Inv(Next(s, e))
  {
    match e
    case Tick(epoch) => TickKeeps(s, epoch);
    case Arrive => ArriveKeeps(s);
    case Late(p) => LateKeeps(s, p);
    case Answered => AnswerKeeps(s);
    case Send => SendKeeps(s);
    case Rejected(status) => RejectedKeeps(s, status);
    case Lost => QuietStepKeeps(s, e);
    case Crash => QuietStepKeeps(s, e);
    case _ => ContentKeeps(s, e);
  }

  lemma AnswerKeeps(s: State)
    requires Inv(s)
    ensures Inv(Next(s, Answered))
  {
  }

  lemma QuietStepKeeps(s: State, e: Event)
    requires Inv(s) && (e.Lost? || e.Crash?)
    ensures Inv(Next(s, e))
  {
    assert Next(s, e) == s.(flight := None, built := Next(s, e).built);
  }

  lemma RejectedKeeps(s: State, status: int)
    requires Inv(s)
    ensures Inv(Next(s, Rejected(status)))
  {
    var t := Next(s, Rejected(status));
    assert t == s.(flight := t.flight, row := t.row);
  }

  lemma SendKeeps(s: State)
    requires Inv(s)
    ensures Inv(Next(s, Send))
  {
    if s.flight.Some? {
      assert s.flight.value.payload in s.staged;
    }
  }

  lemma {:induction false} RunKeeps(s: State, events: seq<Event>)
    requires Inv(s)
    ensures Inv(Run(s, events))
    decreases |events|
  {
    if events != [] {
      RunKeeps(s, events[..|events| - 1]);
      StepKeeps(Run(s, events[..|events| - 1]), events[|events| - 1]);
    }
  }

  lemma ReachableKeeps(s: State)
    requires Reachable(s)
    ensures Inv(s)
  {
    var s0: State, events: seq<Event> :| Initial(s0) && s == Run(s0, events);
    RunKeeps(s0, events);
  }

  // ------------------------------------------------------------ main results

  /** One revision always means one payload, over everything ever sent. */
  lemma OneRevisionOnePayload(s: State, p: Payload, q: Payload)
    requires Reachable(s) && p in s.sent && q in s.sent && p.revision == q.revision
    ensures p == q
  {
    ReachableKeeps(s);
  }

  /** A changed core is sent under a revision above every one sent before, and
      above the one the store reported. */
  lemma NewPayloadIsNewer(s: State, epoch: int)
    requires Reachable(s) && s.flight.None? && s.built.Some?
    requires s.row.Some? ==> s.row.value.fingerprint != s.built.value
    ensures var t := Next(s, Tick(epoch));
            && t.row.Some? && t.row.value.payload == Payload(s.built.value, t.row.value.revision)
            && (forall p <- s.sent :: p.revision < t.row.value.revision)
            && (s.row.Some? ==> s.row.value.revision < t.row.value.revision)
            && epoch <= t.row.value.revision
            && (t.row.value.revision == epoch || t.row.value.revision == if s.row.Some? then s.row.value.revision + 1
                                                                       else 0)
            && t.flight == Some(Put(s.built.value, t.row.value.payload, false, None))
  {
    ReachableKeeps(s);
    StageKeeps(s, s.built.value, epoch);
  }

  /** With the ledger never lost, an acknowledged fingerprint means the store
      holds exactly the staged payload, unless that payload reuses the
      fingerprint acknowledged before it. */
  lemma AckedMeansStored(s: State)
    requires Reachable(s) && s.foreign.None? && s.row.Some? && !s.stale
    requires s.row.value.acked == Some(s.row.value.fingerprint)
    ensures s.remote == Some(s.row.value.payload)
  {
    ReachableKeeps(s);
  }

  /** A stage keeps that law exactly when its fingerprint is not the acknowledged one. */
  lemma StageKeepsTheLawIff(s: State, epoch: int)
    requires Reachable(s) && s.foreign.None? && s.flight.None? && s.built.Some?
    requires s.row.Some? && s.row.value.fingerprint != s.built.value
    ensures var t := Next(s, Tick(epoch));
            (t.row.value.acked == Some(t.row.value.fingerprint) ==> t.remote == Some(t.row.value.payload))
            <==> s.row.value.acked != s.built
  {
    ReachableKeeps(s);
    StageKeeps(s, s.built.value, epoch);
  }

  /** With a store that is ahead of a lost ledger, an acknowledgement may stand
      for a payload the store refused, but then the next change is above it. */
  lemma AheadStoreIsOvertaken(s: State, epoch: int)
    requires Reachable(s) && s.flight.None? && s.built.Some? && s.row.Some? && !s.stale
    requires s.row.value.acked == Some(s.row.value.fingerprint) && s.built.value != s.row.value.fingerprint
    ensures var t := Next(Next(Next(Next(s, Tick(epoch)), Send), Arrive), Answered);
            && t.row.Some? && t.row.value.fingerprint == s.built.value && t.row.value.acked == s.built
            && t.remote == Some(t.row.value.payload)
  {
    ReachableKeeps(s);
  }

  /** With the ledger never lost, one answered PUT is enough, from any state
      whose payload is neither acknowledged nor refused. */
  lemma OnePushConverges(s: State, epoch: int)
    requires Reachable(s) && s.foreign.None? && s.flight.None? && s.built.Some?
    requires s.row.Some? && s.row.value.fingerprint == s.built.value ==>
               s.row.value.acked != s.built && s.row.value.failed != s.built
    ensures var t := Next(Next(Next(Next(s, Tick(epoch)), Send), Arrive), Answered);
            && t.row.Some? && t.row.value.fingerprint == s.built.value && t.row.value.acked == s.built
            && t.remote == Some(t.row.value.payload) && t.remote.value.core == s.built.value
  {
    ReachableKeeps(s);
    var t := Next(s, Tick(epoch));
    StepKeeps(s, Tick(epoch));
    DeliveryStores(t);
  }

  lemma DeliveryStores(s: State)
    requires Inv(s) && s.foreign.None? && s.flight.Some? && s.flight.value.answer.None?
    ensures var t := Next(Next(Next(s, Send), Arrive), Answered);
            && t.row == Some(s.row.value.(acked := Some(s.row.value.fingerprint), revision := t.row.value.revision))
            && t.remote == Some(s.row.value.payload)
  {
    if s.remote.Some? {
      LastIsNewest(s, s.remote.value);
    }
  }

  // ------------------------------------------- what an answer leaves to be sent

  /** What is in flight has not been refused, nor acknowledged, unless it reuses
      the acknowledged fingerprint; and nothing is built beside it. */
  predicate FlightOk(s: State) {
    && (s.stale ==> s.row.Some? && s.row.value.acked == Some(s.row.value.fingerprint))
    && (s.flight.Some? ==>
      && s.row.Some? && s.built.None? && s.flight.value.fingerprint == s.row.value.fingerprint
      && s.flight.value.payload == s.row.value.payload
      && s.row.value.failed != Some(s.row.value.fingerprint)
      && (s.row.value.acked == Some(s.row.value.fingerprint) ==> s.stale))
  }

  lemma FlightStep(s: State, e: Event)
    requires FlightOk(s) && (s.flight.Some? ==> s.row.Some?)
    ensures FlightOk(Next(s, e))
  {
    if e.Tick? {
      TickFlies(s, e.epoch);
    } else if !e.Answered? && !e.Rejected? {
      var t := Next(s, e);
      assert t.row == s.row && t.stale == s.stale;
    }
  }

  lemma TickFlies(s: State, epoch: int)
    requires FlightOk(s)
    ensures FlightOk(Next(s, Tick(epoch)))
  {
  }

  lemma {:induction false} RunFlightOk(s: State, events: seq<Event>)
    requires Inv(s) && FlightOk(s)
    ensures Inv(Run(s, events)) && FlightOk(Run(s, events))
    decreases |events|
  {
    if events != [] {
      var r := Run(s, events[..|events| - 1]);
      RunFlightOk(s, events[..|events| - 1]);
      StepKeeps(r, events[|events| - 1]);
      FlightStep(r, events[|events| - 1]);
    }
  }

  lemma ReachableFlightOk(s: State)
    requires Reachable(s)
    ensures Inv(s) && FlightOk(s)
  {
    var s0: State, events: seq<Event> :| Initial(s0) && s == Run(s0, events);
    RunFlightOk(s0, events);
  }

  /** How a PUT ends: answered, rejected with a status, or not at all. */
  predicate EndsThePut(e: Event) {
    e.Answered? || (e.Rejected? && e.status != 200) || e.Lost? || e.Crash?
  }

  /** While nothing the payload shows has changed, a PUT that ended is made
      again by the next build and tick, with the very same payload and revision,
      unless it was answered, or rejected with 400, 404 or 413, or its fingerprint
      had been acknowledged before; then it is not. */
  lemma PutIsRepeatedIff(s: State, end: Event, epoch: int)
    requires Reachable(s) && s.flight.Some? && s.flight.value.sent && EndsThePut(end)
    requires end.Answered? ==> s.flight.value.answer.Some?
    requires CoreOf(s.content) == s.flight.value.payload.core
    ensures var t := Next(Next(Next(s, end), Build), Tick(epoch));
            && (t.flight.Some? <==> !end.Answered? && !(end.Rejected? && end.status in {400, 404, 413}) && !s.stale)
            && (t.flight.Some? ==>
                  t.flight == Some(Put(s.flight.value.fingerprint, s.flight.value.payload, false, None)))
            && t.staged == s.staged && t.remote == s.remote && t.row.Some? && t.row.value.payload == s.row.value.payload
  {
    ReachableFlightOk(s);
    PutEnds(s, end);
    TicksOn(Next(s, end), epoch);
  }

  lemma PutEnds(s: State, end: Event)
    requires FlightOk(s) && s.flight.Some? && s.flight.value.sent && EndsThePut(end)
    requires end.Answered? ==> s.flight.value.answer.Some?
    ensures var t := Next(s, end); var fp := s.row.value.fingerprint;
            && t.flight.None? && t.content == s.content && t.staged == s.staged && t.remote == s.remote && t.row.Some?
            && t.row.value.payload == s.row.value.payload && t.row.value.fingerprint == fp
            && t.row.value.acked == (if end.Answered? then Some(fp) else s.row.value.acked)
            && t.row.value.failed == (if end.Rejected? && end.status in {400, 404, 413} then Some(fp)
                                      else s.row.value.failed)
  {
  }

  lemma TicksOn(s: State, epoch: int)
    requires s.flight.None? && s.row.Some? && s.row.value.fingerprint == CoreOf(s.content)
    ensures var t := Next(Next(s, Build), Tick(epoch)); var row := s.row.value;
            && t.row == s.row && t.staged == s.staged && t.remote == s.remote
            && t.flight == (if row.acked == Some(row.fingerprint) || row.failed == Some(row.fingerprint) then None
                            else Some(Put(row.fingerprint, row.payload, false, None)))
  {
  }

  /** The first read of a recorded PR as open changes the payload by that alone,
      and the next tick sends it under a newer revision; a later read changes
      nothing. */
  lemma OpenPrIsPushed(s: State, epoch: int)
    requires Reachable(s) && s.flight.None? && s.row.Some? && s.row.value.fingerprint == CoreOf(s.content)
    ensures var c := CoreOf(s.content); var t := Next(Next(Next(s, PrChecked), Build), Tick(epoch));
            if s.content.pr.Unread?
            then
              && t.flight.Some? && t.flight.value.payload.core == c.(pr := ReadOpen)
              && t.flight.value.payload.revision > s.row.value.revision
            else Next(s, PrChecked) == s
  {
    var d := Next(s, PrChecked);
    assert s.content.pr.Unread? ==> CoreOf(d.content) == CoreOf(s.content).(pr := ReadOpen);
  }

  /** Nothing more is to be sent for this content. */
  predicate Quiet(s: State) {
    && s.flight.None? && s.row.Some? && s.row.value.fingerprint == CoreOf(s.content)
    && (s.built.Some? ==> s.built.value == s.row.value.fingerprint)
    && (s.row.value.acked == Some(s.row.value.fingerprint) || s.row.value.failed == Some(s.row.value.fingerprint))
  }

  /** And then for as long as nothing changes it is left alone: no later tick,
      however the process dies and restarts, puts it on the network again. */
  lemma {:induction false} SettledIsLeftAlone(s: State, end: Event, events: seq<Event>)
    requires Reachable(s) && s.flight.Some? && s.flight.value.sent
    requires (end.Answered? && s.flight.value.answer.Some?) || (end.Rejected? && end.status in {400, 404, 413})
    requires CoreOf(s.content) == s.flight.value.payload.core
    requires forall e <- events :: !ChangesContent(e)
    ensures var t := Run(Next(s, end), events);
            Quiet(t) && t.flight.None? && t.sent == s.sent && t.staged == s.staged
    decreases |events|
  {
    ReachableFlightOk(s);
    if events != [] {
      SettledIsLeftAlone(s, end, events[..|events| - 1]);
      assert events[|events| - 1] in events;
      QuietStep(Run(Next(s, end), events[..|events| - 1]), events[|events| - 1]);
    }
  }

  lemma QuietStep(s: State, e: Event)
    requires Quiet(s) && !ChangesContent(e)
    ensures var t := Next(s, e); Quiet(t) && t.sent == s.sent && t.staged == s.staged
  {
  }

  // ------------------------------------------------ when a fingerprint recurs

  /** Without a retry reset, cores are built in an order in which each may
      follow the earlier ones; `moves`: the head commit has moved. */
  ghost predicate Ordered(s: State, moves: bool) {
    && (s.row.Some? && s.row.value.acked.Some? ==> exists p <- s.staged :: p.core == s.row.value.acked.value)
    && Newest(s.content) <= s.clock
    && (forall i, j :: 0 <= i < j < |s.staged| ==> Follows(s.staged[i].core, s.staged[j].core, moves))
    && (forall p <- s.staged :: Follows(p.core, CoreOf(s.content), moves))
    && (s.built.Some? ==> Follows(s.built.value, CoreOf(s.content), moves))
    && (s.built.Some? ==> forall p <- s.staged :: Follows(p.core, s.built.value, moves))
    && (s.stale ==> s.row.Some? && moves && OfTheHead(s.row.value.fingerprint.detail))
  }

  lemma ContentOrdered(s: State, e: Event, moves: bool)
    requires Ordered(s, moves) && (ChangesContent(e) || e.Build?) && !e.RetryReset? && (e.HeadMoves? ==> moves)
    ensures Ordered(Next(s, e), moves)
  {
    var t := Next(s, e);
    if e.HeadMoves? {
      HeadDecides(s.content, e.head);
    }
    forall x: Core | Follows(x, CoreOf(s.content), moves) ensures Follows(x, CoreOf(t.content), moves) {}
  }

  /** A stage that reuses the acknowledged fingerprint. */
  lemma StaleNeedsTheHead(s: State, moves: bool)
    requires Inv(s) && Ordered(s, moves) && s.built.Some? && s.row.Some? && s.row.value.fingerprint != s.built.value
    requires s.row.value.acked == s.built
    ensures moves && OfTheHead(s.built.value.detail)
  {
    var core := s.built.value;
    var p :| p in s.staged && p.core == core;
    var a :| 0 <= a < |s.staged| && s.staged[a] == p;
    var last := s.staged[|s.staged| - 1].core;
    assert last == s.row.value.fingerprint && a < |s.staged| - 1;
    ReturnsOnlyWithTheHead(core, last, moves);
  }

  lemma StageOrdered(s: State, epoch: int, moves: bool)
    requires Inv(s) && Ordered(s, moves) && s.built.Some? && (s.row.Some? ==> s.row.value.fingerprint != s.built.value)
    ensures Ordered(Stage(s, s.built.value, epoch), moves)
  {
    assert forall p <- s.staged :: p in Stage(s, s.built.value, epoch).staged;
    if s.row.Some? && s.row.value.acked == s.built {
      StaleNeedsTheHead(s, moves);
    }
  }

  lemma TickOrdered(s: State, epoch: int, moves: bool)
    requires Inv(s) && Ordered(s, moves)
    ensures Ordered(Next(s, Tick(epoch)), moves)
  {
    if s.flight.None? && s.built.Some? {
      if s.row.Some? && s.row.value.fingerprint == s.built.value {
        var t := Next(s, Tick(epoch));
        assert t == s.(flight := t.flight, built := None);
      } else {
        StageOrdered(s, epoch, moves);
      }
    }
  }

  lemma StepOrdered(s: State, e: Event, moves: bool)
    requires Inv(s) && Ordered(s, moves) && !e.RetryReset? && (e.HeadMoves? ==> moves)
    ensures Ordered(Next(s, e), moves)
  {
    if ChangesContent(e) || e.Build? {
      ContentOrdered(s, e, moves);
    } else if e.Tick? {
      TickOrdered(s, e.epoch, moves);
    } else {
      PushOrdered(s, e, moves);
    }
  }

  lemma PushOrdered(s: State, e: Event, moves: bool)
    requires Inv(s) && Ordered(s, moves)
    requires !ChangesContent(e) && !e.Build? && !e.Tick?
    ensures Ordered(Next(s, e), moves)
  {
    QuietFields(s, e);
    if e.Answered? && s.flight.Some? {
      assert s.row.value.payload == s.staged[|s.staged| - 1] && s.row.value.payload in s.staged;
    }
  }

  /** A step of the push itself builds nothing and stages nothing. */
  lemma QuietFields(s: State, e: Event)
    requires !ChangesContent(e) && !e.Build? && !e.Tick?
    ensures var t := Next(s, e);
            && t.content == s.content && t.clock == s.clock && t.staged == s.staged
            && (t.built == s.built || t.built.None?)
            && (t.stale ==> s.stale)
            && (s.row.Some? ==> t.row.Some? && t.row.value.fingerprint == s.row.value.fingerprint)
            && (t.row.Some? && !e.Answered? ==> s.row.Some? && t.row.value.acked == s.row.value.acked)
  {
  }

  lemma {:induction false} RunOrdered(s0: State, events: seq<Event>, moves: bool)
    requires Initial(s0)
    requires forall e <- events :: !e.RetryReset? && (e.HeadMoves? ==> moves)
    ensures Inv(Run(s0, events)) && Ordered(Run(s0, events), moves)
    decreases |events|
  {
    if events != [] {
      var before := events[..|events| - 1];
      RunOrdered(s0, before, moves);
      assert events[|events| - 1] in events;
      StepKeeps(Run(s0, before), events[|events| - 1]);
      StepOrdered(Run(s0, before), events[|events| - 1], moves);
    }
  }

  lemma RecursWithTheHead(staged: seq<Payload>, moves: bool, i: nat, j: nat, k: nat)
    requires forall m, n :: 0 <= m < n < |staged| ==> Follows(staged[m].core, staged[n].core, moves)
    requires forall m :: 0 <= m < |staged| - 1 ==> staged[m].core != staged[m + 1].core
    requires i <= k <= j < |staged| && i < j && staged[i].core == staged[j].core
    ensures var x := staged[i].core; var y := staged[k].core;
            && moves && OfTheHead(x.detail) && OfTheHead(y.detail)
            && y.stamp == x.stamp && y.pr == x.pr && y.text == x.text
  {
    assert staged[i].core != staged[i + 1].core && i + 1 < j;
    ReturnsOnlyWithTheHead(staged[i].core, staged[i + 1].core, moves);
    if staged[k].core != staged[i].core {
      ReturnsOnlyWithTheHead(staged[i].core, staged[k].core, moves);
    }
  }

  /** Over every run without a retry reset: a fingerprint that recurs is of a
      payload whose detail the head commit decides; the head moved, and from
      the first staging to the second no stamp and no other content did. */
  lemma RecurrenceNeedsTheHead(s0: State, events: seq<Event>, moves: bool, i: nat, j: nat, k: nat)
    requires Initial(s0)
    requires forall e <- events :: !e.RetryReset? && (e.HeadMoves? ==> moves)
    requires i <= k <= j < |Run(s0, events).staged| && i < j
    requires Run(s0, events).staged[i].core == Run(s0, events).staged[j].core
    ensures var staged := Run(s0, events).staged; var x := staged[i].core; var y := staged[k].core;
            && moves && OfTheHead(x.detail) && OfTheHead(y.detail)
            && y.stamp == x.stamp && y.pr == x.pr && y.text == x.text
  {
    RunOrdered(s0, events, moves);
    RecursWithTheHead(Run(s0, events).staged, moves, i, j, k);
  }

  /** So for every run without a retry reset, and without a move of the head or
      for a payload whose detail it does not decide, an acknowledged
      fingerprint does mean the store holds exactly the staged payload. */
  lemma AckedMeansStoredWithoutTheHead(s0: State, events: seq<Event>, moves: bool)
    requires Initial(s0) && s0.remote.None?
    requires forall e <- events :: !e.RetryReset? && (e.HeadMoves? ==> moves)
    requires var s := Run(s0, events);
             && s.row.Some? && s.row.value.acked == Some(s.row.value.fingerprint)
             && (moves ==> !OfTheHead(s.row.value.fingerprint.detail))
    ensures Run(s0, events).remote == Some(Run(s0, events).row.value.payload)
  {
    RunOrdered(s0, events, moves);
    ForeignStays(s0, events);
  }

  lemma {:induction false} ForeignStays(s: State, events: seq<Event>)
    ensures Run(s, events).foreign == s.foreign
    decreases |events|
  {
    if events != [] {
      ForeignStays(s, events[..|events| - 1]);
      StepLeavesForeign(Run(s, events[..|events| - 1]), events[|events| - 1]);
    }
  }

  lemma StepLeavesForeign(s: State, e: Event)
    ensures Next(s, e).foreign == s.foreign
  {
  }

  // --------------------------------------------------------- what can go wrong

  lemma RunSnoc(s: State, events: seq<Event>, e: Event)
    ensures Run(s, events + [e]) == Next(Run(s, events), e)
  {
    assert (events + [e])[..|events + [e]| - 1] == events;
  }

  /** A payload built and acknowledged; another, stored but its answer lost;
      the first again, and its PUT lost. */
  function Around(away: Event, back: Event): seq<Event> {
    [] + [Build] + [Tick(0)] + [Send] + [Arrive] + [Answered]
    + [away] + [Build] + [Tick(0)] + [Send] + [Arrive] + [Lost]
    + [back] + [Build] + [Tick(0)] + [Lost]
  }

  /** The store on `b`, the ledger acknowledged on `a`. */
  function Diverged(content: Content, clock: Stamp, a: Core, b: Core): State {
    State(content, clock, None, Some(Row(a, 2, Payload(a, 2), Some(a), None)), None, Some(Payload(b, 1)), None,
          {Payload(a, 0), Payload(b, 1)}, [Payload(a, 0), Payload(b, 1), Payload(a, 2)], true)
  }

  /** Nothing pushed yet. */
  function Unpushed(content: Content, clock: Stamp): State {
    State(content, clock, None, None, None, None, None, {}, [], false)
  }

  lemma Pushes(s: State, l: seq<Event>, a: Event, b: Event, c: Event, d: Event, e: Event)
    ensures Run(s, l + [a] + [b] + [c] + [d] + [e]) == Next(Next(Next(Next(Next(Run(s, l), a), b), c), d), e)
  {
    RunSnoc(s, l, a);
    RunSnoc(s, l + [a], b);
    RunSnoc(s, l + [a] + [b], c);
    RunSnoc(s, l + [a] + [b] + [c], d);
    RunSnoc(s, l + [a] + [b] + [c] + [d], e);
  }

  function Acked(content: Content, clock: Stamp): State {
    var a := CoreOf(content);
    State(content, clock, None, Some(Row(a, 0, Payload(a, 0), Some(a), None)), None, Some(Payload(a, 0)), None,
          {Payload(a, 0)}, [Payload(a, 0)], false)
  }

  lemma FirstPush(c: Content, clock: Stamp)
    ensures Next(Next(Next(Next(Next(Unpushed(c, clock), Build), Tick(0)), Send), Arrive), Answered) == Acked(c, clock)
  {
    assert [] + [Payload(CoreOf(c), 0)] == [Payload(CoreOf(c), 0)];
    assert {} + {Payload(CoreOf(c), 0)} == {Payload(CoreOf(c), 0)};
  }

  /** The store has moved to the second payload; nobody heard. */
  function Unheard(a: Core, content: Content, clock: Stamp): State {
    var b := CoreOf(content);
    State(content, clock, None, Some(Row(b, 1, Payload(b, 1), Some(a), None)), None, Some(Payload(b, 1)), None,
          {Payload(a, 0), Payload(b, 1)}, [Payload(a, 0), Payload(b, 1)], false)
  }

  lemma SecondPush(s: State, a: Core)
    requires CoreOf(s.content) != a
    requires s == Acked(s.content, s.clock).(row := Some(Row(a, 0, Payload(a, 0), Some(a), None)),
                     remote := Some(Payload(a, 0)), sent := {Payload(a, 0)}, staged := [Payload(a, 0)])
    ensures Next(Next(Next(Next(Next(s, Build), Tick(0)), Send), Arrive), Lost) == Unheard(a, s.content, s.clock)
  {
    var b := Payload(CoreOf(s.content), 1);
    assert [Payload(a, 0)] + [b] == [Payload(a, 0), b] && {Payload(a, 0)} + {b} == {Payload(a, 0), b};
  }

  /** A fingerprint that recurs leaves the store on the wrong payload, and no
      further tick with the same content repairs it: for any step that takes
      the content away and any that brings it back. */
  lemma RecurrenceDiverges(c: Content, clock: Stamp, away: Event, back: Event, epoch: int)
    requires Newest(c) <= clock && ChangesContent(away) && ChangesContent(back)
    requires var s := Next(Unpushed(c, clock), away);
             CoreOf(s.content) != CoreOf(c) && Next(s, back).content == c
    ensures Initial(Unpushed(c, clock))
    ensures var b := CoreOf(Next(Unpushed(c, clock), away).content);
            var d := Run(Unpushed(c, clock), Around(away, back));
            && d == Diverged(c, d.clock, CoreOf(c), b) && d.remote.value.core != CoreOf(c)
            && Next(Next(d, Build), Tick(epoch)) == d
  {
    var s0 := Unpushed(c, clock);
    var a := CoreOf(c);
    var l := [] + [Build] + [Tick(0)] + [Send] + [Arrive] + [Answered];
    Pushes(s0, [], Build, Tick(0), Send, Arrive, Answered);
    FirstPush(c, clock);
    var s1 := Next(Acked(c, clock), away);
    RunSnoc(s0, l, away);
    assert s1 == Acked(c, clock).(content := s1.content, clock := s1.clock);
    Pushes(s0, l + [away], Build, Tick(0), Send, Arrive, Lost);
    SecondPush(s1, a);
    var m := l + [away] + [Build] + [Tick(0)] + [Send] + [Arrive] + [Lost];
    var s2 := Next(Unheard(a, s1.content, s1.clock), back);
    RunSnoc(s0, m, back);
    RunSnoc(s0, m + [back], Build);
    RunSnoc(s0, m + [back] + [Build], Tick(0));
    RunSnoc(s0, m + [back] + [Build] + [Tick(0)], Lost);
    ThirdPush(s2, c, a, CoreOf(s1.content), epoch);
  }

  lemma ThirdPush(s: State, c: Content, a: Core, b: Core, epoch: int)
    requires s.content == c && a == CoreOf(c) && a != b
    requires s == State(c, s.clock, None, Some(Row(b, 1, Payload(b, 1), Some(a), None)), None,
                        Some(Payload(b, 1)), None, {Payload(a, 0), Payload(b, 1)},
                        [Payload(a, 0), Payload(b, 1)], false)
    ensures Next(Next(Next(s, Build), Tick(0)), Lost) == Diverged(c, s.clock, a, b)
    ensures Next(Next(Diverged(c, s.clock, a, b), Build), Tick(epoch)) == Diverged(c, s.clock, a, b)
  {
    assert [Payload(a, 0), Payload(b, 1)] + [Payload(a, 2)] == [Payload(a, 0), Payload(b, 1), Payload(a, 2)];
  }

  /** Localized at the head commit. */
  const LOCALIZED := Content(1, [], Some(Localization(1, "x")), 0, 0, None, Some("x"), None, Unread, "t")

  /** The first input that does it: the head moves off the localized commit and back. */
  lemma HeadReturnDiverges(epoch: int)
    ensures var d := Run(Unpushed(LOCALIZED, 1), Around(HeadMoves(Some("y")), HeadMoves(Some("x"))));
            var b := CoreOf(LOCALIZED.(head := Some("y")));
            && d == Diverged(LOCALIZED, d.clock, CoreOf(LOCALIZED), b) && b.detail == Stale
            && Next(Next(d, Build), Tick(epoch)) == d
  {
    RecurrenceDiverges(LOCALIZED, 1, HeadMoves(Some("y")), HeadMoves(Some("x")), epoch);
  }

  /** The second: a fix attempt fails whose report was moved back to `triaged`
      by hand meanwhile, so that the failed row is the newest, and a manual
      retry deletes it. */
  lemma ResetDiverges(epoch: int)
    ensures var d := Run(Unpushed(LOCALIZED, 1), Around(Stamped(LOCALIZED.(failures := [Failure(2, true)])),
                                                        RetryReset));
            var b := CoreOf(LOCALIZED.(failures := [Failure(2, true)]));
            && d == Diverged(LOCALIZED, d.clock, CoreOf(LOCALIZED), b) && b.detail == FixFailed
            && Next(Next(d, Build), Tick(epoch)) == d
  {
    ResetReturns(LOCALIZED, 2);
    assert DetailOf(LOCALIZED.(failures := [Failure(2, true)])) == FixFailed by {
      assert NewestFailure([Failure(2, true)], true) == 2;
    }
    RecurrenceDiverges(LOCALIZED, 1, Stamped(LOCALIZED.(failures := [Failure(2, true)])), RetryReset, epoch);
  }

  // -------------------------------------------------------- the writers

  /** The row of one report and the store it is pushed to. */
  class Pusher {
    var row: Option<Row>
    var flight: Option<Put>
    ghost var world: State

    ghost function Machine(): State
      reads this
    {
      world.(row := row, flight := flight)
    }

    /** One report's turn of `_push`, up to the PUT: skip, resend as stored, or stage. */
    method Prepare(core: Core, epoch: int) returns (skipped: bool)
      requires flight.None? && world.built == Some(core)
      modifies this
      ensures Machine() == Next(old(Machine()), Tick(epoch))
      ensures skipped <==> flight.None?
    {
      world := world.(built := None);
      if row.Some? && row.value.fingerprint == core {
        if row.value.acked == Some(core) || row.value.failed == Some(core) {
          return true;
        }
        flight := Some(Put(core, row.value.payload, false, None));
        return false;
      }
      var revision := epoch;
      if row.Some? && row.value.revision + 1 > revision {
        revision := row.value.revision + 1;
      }
      if row.None? && revision < 0 {
        revision := 0;
      }
      var payload := Payload(core, revision);
      var acked := if row.Some? then row.value.acked else None;
      row := Some(Row(core, revision, payload, acked, None));
      flight := Some(Put(core, payload, false, None));
      world := world.(staged := world.staged + [payload], stale := acked == Some(core));
      return false;
    }

    /** What the PUT's answer writes. */
    method Finish(status: int)
      requires flight.Some? && flight.value.sent && row.Some? && (status == 200 ==> flight.value.answer.Some?)
      modifies this
      ensures Machine() == Next(old(Machine()), if status == 200 then Answered else Rejected(status))
    {
      var put := flight.value;
      if status == 200 {
        row := Some(row.value.(acked := Some(put.fingerprint)));
        if put.answer.value.NotApplied? && put.answer.value.storedRevision >= put.payload.revision {
          row := Some(row.value.(revision := put.answer.value.storedRevision));
        }
        world := world.(stale := false);
      } else if status == 400 || status == 404 || status == 413 {
        row := Some(row.value.(failed := Some(put.fingerprint)));
      }
      flight := None;
    }
  }
}
