/** One whole run of the triage machine, from a listed compound to `done`. */
module TriageExample {
  import opened Common
  import opened Ledger
  import opened Actions
  import opened TriageMachine
  import Workflow

  /** A compound listed with both consents and its requester's key, on a
      triaged, freshly localized report. */
  const LISTED := Listed(FixAndOpenPr, "r", Names(Anthropic, "m"), false, true, true)
  const CONTEXT := Context(Pin(Ollama, ""), Pin(Ollama, ""), Pin(Anthropic, "m"), false, true)

  /** One action on one report, the per-user-keys gate on, one LLM slot. */
  function World(a: Act, status: Status, recorded: map<Rid, Pid>): State {
    State(true, 1, 10, map["a" := a], map["r" := status], recorded)
  }

  lemma Moves(a: Act, status: Status, recorded: map<Rid, Pid>, e: Event, b: Act, after: Status)
    requires a.listed == LISTED
    requires Local(World(a, status, recorded), a, SlotsFor(World(a, status, recorded), "a"), e) == (Some(after), b)
    ensures Next(World(a, status, recorded), On("a", e)) == World(b, after, recorded)
  {
    var s := World(a, status, recorded);
    assert s.acts["a"] == a && s.acts["a" := b] == map["a" := b] && s.reports["r" := after] == map["r" := after];
  }

  const A0 := NewAct(LISTED)
  const A1 := A0.(row := Some(NewRow(FixAndOpenPr, "r")), hold := Some(Hold("r", true, Idle)), tick := Some(Posting))
  const GRANTED := NewRow(FixAndOpenPr, "r").(phase := Intent, intentAt := Some(0), pin := Some(Pin(Anthropic, "m")),
    noAutoRetry := true, requesterKey := true)
  const A2 := A1.(row := Some(GRANTED), tick := Some(Intended), remote := RemoteClaimed)
  const RUNNING := GRANTED.(phase := Dispatched)

  /** The task's action: its row, what the task is about to do, the trace, and what it made. */
  function Tasked(row: Row, task: Task, trace: Trace, made: Made): Act {
    Act(LISTED, Some(row), Some(Hold("r", true, task)), None, None, made, RemoteClaimed, trace)
  }

  const NOTHING := Made([], [])
  const FIXED := Made([StageRow(FixStage, StageCompleted, false)], ["p"])
  const CALL := ModelCall(RequesterKey, true, true)
  const CHECKED := RUNNING.(phase := FixDone, proposal := Some("p"), steps := FixStep(StepDone))

  const DISPATCHED := NO_TRACE.(dispatches := 1)
  const KEYED := NO_TRACE.(dispatches := 1, credentials := 1)
  const CALLED := NO_TRACE.(dispatches := 1, credentials := 1, calls := [CALL])
  const OPENED := NO_TRACE.(dispatches := 1, credentials := 1, calls := [CALL], prCalls := [Some("p")])
  const BODY := Body(Done, PrMessage(true, Done, ""), StepPair(StepDone, StepDone))

  /** The finished row, and the action at the end. */
  const FINISHED := CHECKED.(phase := Finished, outcome := Some(Done), message := PrMessage(true, Done, ""),
    steps := StepPair(StepDone, StepDone), prUrl := Some("u"))
  const FINAL := Act(LISTED, Some(FINISHED.(acked := true)), None, None, None, FIXED, Terminal(Done),
                     Trace(1, 1, [CALL], [Some("p")], 0, [BODY]))

  lemma RunSnoc(s: State, steps: seq<Step>, step: Step)
    ensures Run(s, steps + [step]) == Next(Run(s, steps), step)
  {
    assert (steps + [step])[..|steps + [step]| - 1] == steps;
  }

  lemma {:induction false} RunConcat(s: State, xs: seq<Step>, ys: seq<Step>)
    ensures Run(s, xs + ys) == Run(Run(s, xs), ys)
    decreases |ys|
  {
    if ys == [] {
      assert xs + ys == xs;
    } else {
      var before := ys[..|ys| - 1];
      assert xs + ys == (xs + before) + [ys[|ys| - 1]];
      RunSnoc(s, xs + before, ys[|ys| - 1]);
      RunConcat(s, xs, before);
    }
  }

  lemma Three(s: State, x: Step, y: Step, z: Step)
    ensures Run(s, [x, y, z]) == Next(Next(Next(s, x), y), z)
  {
    RunSnoc(s, [], x);
    RunSnoc(s, [x], y);
    RunSnoc(s, [x, y], z);
    assert [] + [x] == [x] && [x] + [y] == [x, y] && [x, y] + [z] == [x, y, z];
  }

  lemma Reserves()
    ensures Next(World(A0, Workflow.Triaged, map[]), On("a", Listing(0))) == World(A1, Workflow.Triaged, map[])
  {
    var s := World(A0, Workflow.Triaged, map[]);
    assert SlotsFor(s, "a") == Slots({}, false) by {
      assert Held(s.acts) == {} && LlmHeld(s.acts) == {};
    }
    Moves(A0, Workflow.Triaged, map[], Listing(0), A1, Workflow.Triaged);
  }

  lemma IsGranted()
    ensures Next(World(A1, Workflow.Triaged, map[]), On("a", ClaimAnswered(Answered, CONTEXT, 0))) ==
            World(A2, Workflow.Triaged, map[])
  {
    assert !Blank("m") by { assert 'm' in "m"; }
    Moves(A1, Workflow.Triaged, map[], ClaimAnswered(Answered, CONTEXT, 0), A2, Workflow.Triaged);
  }

  lemma ClaimsAndDispatches() returns (steps: seq<Step>)
    ensures Run(World(A0, Workflow.Triaged, map[]), steps) ==
            World(Tasked(RUNNING, Queued, DISPATCHED, NOTHING), Workflow.Triaged, map[])
  {
    steps := [On("a", Listing(0)), On("a", ClaimAnswered(Answered, CONTEXT, 0)), On("a", DispatchIntended)];
    Three(World(A0, Workflow.Triaged, map[]), On("a", Listing(0)), On("a", ClaimAnswered(Answered, CONTEXT, 0)),
          On("a", DispatchIntended));
    Reserves();
    IsGranted();
    IsDispatched();
  }

  lemma IsDispatched()
    ensures Next(World(A2, Workflow.Triaged, map[]), On("a", DispatchIntended)) ==
            World(Tasked(RUNNING, Queued, DISPATCHED, NOTHING), Workflow.Triaged, map[])
  {
    Moves(A2, Workflow.Triaged, map[], DispatchIntended, Tasked(RUNNING, Queued, DISPATCHED, NOTHING),
          Workflow.Triaged);
  }

  lemma FetchesAndClaims() returns (steps: seq<Step>)
    ensures Run(World(Tasked(RUNNING, Queued, DISPATCHED, NOTHING), Workflow.Triaged, map[]), steps) ==
            World(Tasked(RUNNING, Claimed(RequesterKey), KEYED, NOTHING), Workflow.FixProposing, map[])
  {
    steps := [On("a", TaskBegins(true)), On("a", CredentialAnswered(Answer(200, OtherCode, Anthropic, true))),
              On("a", StageClaims)];
    Moves(Tasked(RUNNING, Queued, DISPATCHED, NOTHING), Workflow.Triaged, map[], TaskBegins(true),
          Tasked(RUNNING, Fetching, KEYED, NOTHING), Workflow.Triaged);
    Moves(Tasked(RUNNING, Fetching, KEYED, NOTHING), Workflow.Triaged, map[], steps[1].event,
          Tasked(RUNNING, Keyed(RequesterKey), KEYED, NOTHING), Workflow.Triaged);
    Moves(Tasked(RUNNING, Keyed(RequesterKey), KEYED, NOTHING), Workflow.Triaged, map[], StageClaims,
          Tasked(RUNNING, Claimed(RequesterKey), KEYED, NOTHING), Workflow.FixProposing);
    Three(World(Tasked(RUNNING, Queued, DISPATCHED, NOTHING), Workflow.Triaged, map[]), steps[0], steps[1], steps[2]);
  }

  lemma CallsAndFixes() returns (steps: seq<Step>)
    ensures Run(World(Tasked(RUNNING, Claimed(RequesterKey), KEYED, NOTHING), Workflow.FixProposing, map[]), steps) ==
            World(Tasked(RUNNING, WroteProposal("p"), CALLED, FIXED), Workflow.FixProposing, map[])
  {
    steps := [On("a", Preconditions(Ready)), On("a", ModelAnswered(true)), On("a", ProposalWritten("p"))];
    var half := Made([StageRow(FixStage, StageCompleted, false)], []);
    assert KEYED.calls + [CALL] == CALLED.calls;
    assert half.rows == [StageRow(FixStage, StageCompleted, false)] + [] && ["p"] == ["p"] + [];
    Moves(Tasked(RUNNING, Claimed(RequesterKey), KEYED, NOTHING), Workflow.FixProposing, map[], Preconditions(Ready),
          Tasked(RUNNING, Calling, CALLED, NOTHING), Workflow.FixProposing);
    Moves(Tasked(RUNNING, Calling, CALLED, NOTHING), Workflow.FixProposing, map[], ModelAnswered(true),
          Tasked(RUNNING, WroteFix, CALLED, half), Workflow.FixProposing);
    Moves(Tasked(RUNNING, WroteFix, CALLED, half), Workflow.FixProposing, map[], ProposalWritten("p"),
          Tasked(RUNNING, WroteProposal("p"), CALLED, FIXED), Workflow.FixProposing);
    Three(World(Tasked(RUNNING, Claimed(RequesterKey), KEYED, NOTHING), Workflow.FixProposing, map[]), steps[0],
          steps[1], steps[2]);
  }

  lemma ChecksAndOpens() returns (steps: seq<Step>)
    ensures Run(World(Tasked(RUNNING, WroteProposal("p"), CALLED, FIXED), Workflow.FixProposing, map[]), steps) ==
            World(Tasked(CHECKED, PrCalling(Some("p"), 0), OPENED, FIXED), Workflow.FixProposing, map[])
  {
    steps := [On("a", StageReturns), On("a", TaskEnds(1)), On("a", PrBegins(1))];
    assert CALLED.prCalls + [Some("p")] == OPENED.prCalls;
    Moves(Tasked(RUNNING, WroteProposal("p"), CALLED, FIXED), Workflow.FixProposing, map[], StageReturns,
          Tasked(RUNNING, Over(FixMade("p")), CALLED, FIXED), Workflow.FixProposing);
    Moves(Tasked(RUNNING, Over(FixMade("p")), CALLED, FIXED), Workflow.FixProposing, map[], TaskEnds(1),
          Tasked(CHECKED, PrReady, CALLED, FIXED), Workflow.FixProposing);
    Moves(Tasked(CHECKED, PrReady, CALLED, FIXED), Workflow.FixProposing, map[], PrBegins(1),
          Tasked(CHECKED, PrCalling(Some("p"), 0), OPENED, FIXED), Workflow.FixProposing);
    Three(World(Tasked(RUNNING, WroteProposal("p"), CALLED, FIXED), Workflow.FixProposing, map[]), steps[0], steps[1],
          steps[2]);
  }

  lemma RecordsThePr() returns (steps: seq<Step>)
    ensures Run(World(Tasked(CHECKED, PrCalling(Some("p"), 0), OPENED, FIXED), Workflow.FixProposing, map[]), steps) ==
            World(Tasked(CHECKED, PrCalling(Some("p"), 0), OPENED, FIXED), Workflow.FixProposing, map["r" := "p"])
  {
    var s := World(Tasked(CHECKED, PrCalling(Some("p"), 0), OPENED, FIXED), Workflow.FixProposing, map[]);
    assert s.recorded["r" := "p"] == map["r" := "p"];
    steps := [] + [PrRecorded("r", "p")];
    RunSnoc(s, [], PrRecorded("r", "p"));
  }

  const CLOSED := Act(LISTED, Some(FINISHED), None, None, None, FIXED, RemoteClaimed, OPENED)
  const POSTED := OPENED.(posts := [BODY])
  const IN_FLIGHT := Act(LISTED, Some(FINISHED), None, None, Some(BODY), FIXED, RemoteClaimed, POSTED)

  lemma FinishesThePr()
    ensures Next(World(Tasked(CHECKED, PrCalling(Some("p"), 0), OPENED, FIXED), Workflow.FixProposing, map["r" := "p"]),
                 On("a", PrAnswered(Opened("u", true), 2))) == World(CLOSED, Workflow.FixProposing, map["r" := "p"])
  {
    Moves(Tasked(CHECKED, PrCalling(Some("p"), 0), OPENED, FIXED), Workflow.FixProposing, map["r" := "p"],
          PrAnswered(Opened("u", true), 2), CLOSED, Workflow.FixProposing);
  }

  lemma SendsTheOutcome(recorded: map<Rid, Pid>)
    ensures Next(World(CLOSED, Workflow.FixProposing, recorded), On("a", TerminalSent)) ==
            World(IN_FLIGHT, Workflow.FixProposing, recorded)
  {
    assert OPENED.posts + [BODY] == [BODY];
    Moves(CLOSED, Workflow.FixProposing, recorded, TerminalSent, IN_FLIGHT, Workflow.FixProposing);
  }

  lemma HearsTheAnswer(recorded: map<Rid, Pid>)
    ensures Next(World(IN_FLIGHT, Workflow.FixProposing, recorded), On("a", TerminalAnswered(Answered))) ==
            World(FINAL, Workflow.FixProposing, recorded)
  {
    Moves(IN_FLIGHT, Workflow.FixProposing, recorded, TerminalAnswered(Answered), FINAL, Workflow.FixProposing);
  }

  lemma FinishesAndPosts() returns (steps: seq<Step>)
    ensures Run(World(Tasked(CHECKED, PrCalling(Some("p"), 0), OPENED, FIXED), Workflow.FixProposing,
                      map["r" := "p"]), steps) ==
            World(FINAL, Workflow.FixProposing, map["r" := "p"])
  {
    steps := [On("a", PrAnswered(Opened("u", true), 2)), On("a", TerminalSent), On("a", TerminalAnswered(Answered))];
    Three(World(Tasked(CHECKED, PrCalling(Some("p"), 0), OPENED, FIXED), Workflow.FixProposing, map["r" := "p"]),
          On("a", PrAnswered(Opened("u", true), 2)), On("a", TerminalSent), On("a", TerminalAnswered(Answered)));
    FinishesThePr();
    SendsTheOutcome(map["r" := "p"]);
    HearsTheAnswer(map["r" := "p"]);
  }

  lemma SixGroups(s: State, a: seq<Step>, b: seq<Step>, c: seq<Step>, d: seq<Step>, e: seq<Step>, f: seq<Step>)
    ensures Run(s, a + b + c + d + e + f) == Run(Run(Run(Run(Run(Run(s, a), b), c), d), e), f)
  {
    RunConcat(s, a, b);
    RunConcat(s, a + b, c);
    RunConcat(s, a + b + c, d);
    RunConcat(s, a + b + c + d, e);
    RunConcat(s, a + b + c + d + e, f);
  }

  lemma StartsFresh()
    ensures Initial(World(A0, Workflow.Triaged, map[]))
  {
  }

  lemma ReachesFinal() returns (steps: seq<Step>)
    ensures Run(World(A0, Workflow.Triaged, map[]), steps) == World(FINAL, Workflow.FixProposing, map["r" := "p"])
  {
    var s := World(A0, Workflow.Triaged, map[]);
    var a := ClaimsAndDispatches();
    var b := FetchesAndClaims();
    var c := CallsAndFixes();
    var d := ChecksAndOpens();
    var e := RecordsThePr();
    var f := FinishesAndPosts();
    SixGroups(s, a, b, c, d, e, f);
    steps := a + b + c + d + e + f;
  }

  /** The machine does reach `done`: a run from a fresh ledger after which the
      action is over and acknowledged, and sonicgrid agrees. The run made one
      dispatch, fetched one credential, called the paid model once on that key,
      asked once for the PR of the proposal it had made, now recorded, and
      posted once, its own outcome. */
  lemma CompoundCanFinish() returns (steps: seq<Step>)
    ensures Initial(World(A0, Workflow.Triaged, map[]))
    ensures var t := Run(World(A0, Workflow.Triaged, map[]), steps);
            "a" in t.acts && t.acts["a"].row.Some? &&
            var a := t.acts["a"]; var row := a.row.value;
            && row.kind.FixAndOpenPr? && row.outcome == Some(Done) && row.acked && !row.breach && a.hold.None?
            && a.remote == Terminal(Done)
            && a.trace.dispatches == 1 && a.trace.credentials == 1
            && a.trace.calls == [ModelCall(RequesterKey, true, true)]
            && row.proposal.Some? && a.made.proposals == [row.proposal.value] && a.trace.prCalls == [row.proposal]
            && t.recorded == map[row.report := row.proposal.value]
            && a.trace.posts == [TerminalBody(row)]
  {
    steps := ReachesFinal();
    StartsFresh();
  }
}
