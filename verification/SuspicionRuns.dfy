/** Three runs of two peers in which a mistaken suspicion lets both in: the reply of the one that gives up is
    on its way; the vote given up on is not awaited until later; a stale vote counts for a later request. */
module SuspicionRuns {
  import opened Types
  import opened CriticalSection
  import opened MutexSystem
  import opened MutexTheorems
  import opened Suspicion
  import opened TwoPeers

  lemma Then(before: seq<World>, moves: seq<Move>, m: Move, w: World) returns (ws: seq<World>, ms: seq<Move>)
    requires IsFallibleRun(before, moves) && MoveEnabled(before[|moves|], m) && w == MoveNext(before[|moves|], m)
    ensures IsFallibleRun(ws, ms) && ws[|ms|] == w && ws == before + [w] && ms == moves + [m]
  {
    ws, ms := before + [w], moves + [m];
    forall k | 0 <= k < |ms|
      ensures MoveAt(ws, ms, k)
    {
      assert k < |moves| ==> MoveAt(before, moves, k);
    }
  }

  /* ---- The reply is on its way ---- */

  const ASK_1 := Env(0, 1, 2, CsRequest(1))
  const ASK_2 := Env(1, 2, 1, CsRequest(1))
  const YES := Env(4, 2, 1, CsReply(3))
  const WEIGHED := Waiting(0, 1, 1)
  const LOADED := Loaded(0, 1, 1, Some(1))
  const FIRST := Node(1, 1, Requesting, Some(1), {}, {})

  const BOTH_0 := Two(FIRST, IDLE_2, {ASK_1}, 1)
  const BOTH_1 := Two(FIRST, Node(2, 1, Requesting, Some(1), {}, {}), {ASK_1, ASK_2}, 2)
  const BOTH_2 := Two(FIRST, Node(2, 2, Requesting, Some(1), {WEIGHED}, {0}), {ASK_2}, 3)
  const BOTH_3 := Two(FIRST, Node(2, 2, Requesting, Some(1), {LOADED}, {0}), {ASK_2}, 4)
  const BOTH_4 := Two(FIRST, Node(2, 3, Requesting, Some(1), {}, {0}), {ASK_2, YES}, 5)
  const ALONE := Node(2, 3, InCs, Some(1), {}, {0}).(neighbors := {})
  const BOTH_5 := Two(FIRST, ALONE, {ASK_2, YES}, 5)
  const BOTH_6 := Two(Node(1, 4, InCs, Some(1), {}, {4}), ALONE, {ASK_2}, 6)

  lemma RequestSteps()
    ensures Enabled(START, Request(1)) && Next(START, Request(1)) == BOTH_0
    ensures Enabled(BOTH_0, Request(2)) && Next(BOTH_0, Request(2)) == BOTH_1
  {
    StepIs(START, Request(1), BOTH_0);
    StepIs(BOTH_0, Request(2), BOTH_1);
  }

  lemma AnswerSteps()
    ensures Enabled(BOTH_1, Receive(ASK_1)) && Next(BOTH_1, Receive(ASK_1)) == BOTH_2
    ensures Enabled(BOTH_2, Load(2, WEIGHED)) && Next(BOTH_2, Load(2, WEIGHED)) == BOTH_3
    ensures Enabled(BOTH_3, Act(2, LOADED)) && Next(BOTH_3, Act(2, LOADED)) == BOTH_4
  {
    StepIs(BOTH_1, Receive(ASK_1), BOTH_2);
    StepIs(BOTH_2, Load(2, WEIGHED), BOTH_3);
    StepIs(BOTH_3, Act(2, LOADED), BOTH_4);
  }

  lemma GivesUpAndReceives()
    ensures CanSuspect(BOTH_4, 2, 1, {}) && Suspect(BOTH_4, 2, 1, {}) == BOTH_5
    ensures Enabled(BOTH_5, Receive(YES)) && Next(BOTH_5, Receive(YES)) == BOTH_6
  {
    assert {1} - {1} == {};
    assert DropPeer(BOTH_4.nodes[2], 1) == ALONE;
    assert Suspect(BOTH_4, 2, 1, {}).nodes == BOTH_5.nodes && BOTH_4.net - {} == BOTH_5.net;
    StepIs(BOTH_5, Receive(YES), BOTH_6);
  }

  lemma FirstRequests() returns (ws: seq<World>, ms: seq<Move>)
    ensures IsFallibleRun(ws, ms) && |ms| == 1 && ms[0].Right? && ws[1] == BOTH_0
  {
    StartsRight();
    RequestSteps();
    ws, ms := Then([START], [], Right(Request(1)), BOTH_0);
  }

  lemma BothRequest() returns (ws: seq<World>, ms: seq<Move>)
    ensures IsFallibleRun(ws, ms) && |ms| == 2 && ws[2] == BOTH_1
  {
    RequestSteps();
    ws, ms := FirstRequests();
    ws, ms := Then(ws, ms, Right(Request(2)), BOTH_1);
  }

  lemma SecondAnswers() returns (ws: seq<World>, ms: seq<Move>)
    ensures IsFallibleRun(ws, ms) && |ms| == 5 && ws[5] == BOTH_4
  {
    AnswerSteps();
    ws, ms := BothRequest();
    ws, ms := Then(ws, ms, Right(Receive(ASK_1)), BOTH_2);
    ws, ms := Then(ws, ms, Right(Load(2, WEIGHED)), BOTH_3);
    ws, ms := Then(ws, ms, Right(Act(2, LOADED)), BOTH_4);
  }

  /** Peer 2 answers 1's request, which is ahead of its own, then gives up on 1 and enters. Nobody else
      is in then; the reply arrives and both are. */
  lemma ReplyOnItsWay() returns (ws: seq<World>, ms: seq<Move>)
    ensures IsFallibleRun(ws, ms) && |ms| == 7 && ms[5] == Wrong(2, 1, {})
    ensures !Holds(ws[5], 1) && !Holds(ws[5], 2)
    ensures !Holds(ws[6], 1) && Holds(ws[6], 2)
    ensures Holds(ws[7], 1) && Holds(ws[7], 2)
  {
    GivesUpAndReceives();
    ws, ms := SecondAnswers();
    ws, ms := Then(ws, ms, Wrong(2, 1, {}), BOTH_5);
    ws, ms := Then(ws, ms, Right(Receive(YES)), BOTH_6);
  }

  /* ---- The vote is not awaited yet ---- */

  const AGREED := Env(1, 2, 1, CsReply(3))
  const HOLDER := Node(1, 4, InCs, Some(1), {}, {1})
  const LATER_1 := Two(FIRST, Node(2, 3, Idle, None, {}, {0}), {AGREED}, 2)
  const LATER_2 := Two(HOLDER, Node(2, 3, Idle, None, {}, {0}), {}, 3)
  const LATER_3 := Two(HOLDER, Node(2, 3, Idle, None, {}, {0}).(neighbors := {}), {}, 3)
  const LATER_4 := Two(HOLDER, Node(2, 4, Requesting, Some(4), {}, {0}).(neighbors := {}, pending := {}), {}, 4)
  const LATER_5 := Two(HOLDER, Node(2, 4, InCs, Some(4), {}, {0}).(neighbors := {}), {}, 5)

  lemma HolderSteps()
    ensures Enabled(BOTH_0, Receive(ASK_1)) && Next(BOTH_0, Receive(ASK_1)) == LATER_1
    ensures Enabled(LATER_1, Receive(AGREED)) && Next(LATER_1, Receive(AGREED)) == LATER_2
  {
    StepIs(BOTH_0, Receive(ASK_1), LATER_1);
    StepIs(LATER_1, Receive(AGREED), LATER_2);
  }

  lemma GivesUpAndRequests()
    ensures CanSuspect(LATER_2, 2, 1, {}) && Suspect(LATER_2, 2, 1, {}) == LATER_3
    ensures Enabled(LATER_3, Request(2)) && Next(LATER_3, Request(2)) == LATER_4
    ensures Enabled(LATER_4, Enter(2)) && Next(LATER_4, Enter(2)) == LATER_5
  {
    assert {1} - {1} == {};
    assert DropPeer(LATER_2.nodes[2], 1) == LATER_3.nodes[2];
    assert Suspect(LATER_2, 2, 1, {}).nodes == LATER_3.nodes && LATER_2.net - {} == LATER_3.net;
    StepIs(LATER_3, Request(2), LATER_4);
    StepIs(LATER_4, Enter(2), LATER_5);
  }

  lemma FirstHolds() returns (ws: seq<World>, ms: seq<Move>)
    ensures IsFallibleRun(ws, ms) && |ms| == 3 && ws[3] == LATER_2
  {
    HolderSteps();
    ws, ms := FirstRequests();
    ws, ms := Then(ws, ms, Right(Receive(ASK_1)), LATER_1);
    ws, ms := Then(ws, ms, Right(Receive(AGREED)), LATER_2);
  }

  /** Peer 2, idle, gives up on the holder 1, and its next request asks nobody. */
  lemma NextRequestSkipsHolder() returns (ws: seq<World>, ms: seq<Move>)
    ensures IsFallibleRun(ws, ms) && |ms| == 6 && ms[3] == Wrong(2, 1, {}) && ms[4] == Right(Request(2))
    ensures ws[3].nodes.Keys == {1, 2} && ws[3].nodes[2].phase == Idle && Holds(ws[3], 1)
    ensures Holds(ws[6], 1) && Holds(ws[6], 2)
  {
    GivesUpAndRequests();
    ws, ms := FirstHolds();
    ws, ms := Then(ws, ms, Wrong(2, 1, {}), LATER_3);
    ws, ms := Then(ws, ms, Right(Request(2)), LATER_4);
    ws, ms := Then(ws, ms, Right(Enter(2)), LATER_5);
  }

  /* ---- A stale vote ---- */

  const STALE := Env(3, 2, 1, CsReply(3))
  const ASK_AFTER := Env(4, 2, 1, CsRequest(4))
  const YES_AFTER := Env(5, 1, 2, CsReply(6))
  const ASK_AGAIN := Env(7, 1, 2, CsRequest(7))
  const ANSWERED := Node(2, 3, Idle, None, {}, {0})
  const SECOND := Node(2, 4, Requesting, Some(4), {}, {0})
  const SECOND_IN := Node(2, 7, InCs, Some(4), {}, {0, 5})

  const STALE_1 := Two(Node(1, 1, InCs, Some(1), {}, {}).(neighbors := {}), IDLE_2, {ASK_1}, 1)
  const STALE_2 := Two(Node(1, 1, Idle, None, {}, {}).(neighbors := {}, releasing := true), IDLE_2, {ASK_1}, 2)
  const STALE_3 := Two(Node(1, 1, Idle, None, {}, {}).(neighbors := {}), IDLE_2, {ASK_1}, 3)
  const STALE_4 := Two(Node(1, 1, Idle, None, {}, {}).(neighbors := {}), ANSWERED, {STALE}, 4)
  const STALE_5 := Two(Node(1, 1, Idle, None, {}, {}).(neighbors := {}), SECOND, {STALE, ASK_AFTER}, 5)
  const STALE_6 := Two(Node(1, 6, Idle, None, {}, {4}), SECOND, {STALE, YES_AFTER}, 6)
  const STALE_7 := Two(Node(1, 6, Idle, None, {}, {4}), SECOND_IN, {STALE}, 7)
  const STALE_8 := Two(Node(1, 7, Requesting, Some(7), {}, {4}), SECOND_IN, {STALE, ASK_AGAIN}, 8)
  const STALE_9 := Two(Node(1, 8, InCs, Some(7), {}, {4, 3}), SECOND_IN, {ASK_AGAIN}, 9)

  lemma EntersAlone()
    ensures CanSuspect(BOTH_0, 1, 2, {}) && Suspect(BOTH_0, 1, 2, {}) == STALE_1
    ensures Enabled(STALE_1, Step.Collect(1)) && Next(STALE_1, Step.Collect(1)) == STALE_2
    ensures Enabled(STALE_2, Step.Clear(1)) && Next(STALE_2, Step.Clear(1)) == STALE_3
  {
    assert {2} - {2} == {};
    assert DropPeer(BOTH_0.nodes[1], 2) == STALE_1.nodes[1];
    assert Suspect(BOTH_0, 1, 2, {}).nodes == STALE_1.nodes && BOTH_0.net - {} == STALE_1.net;
    StepIs(STALE_1, Step.Collect(1), STALE_2);
    StepIs(STALE_2, Step.Clear(1), STALE_3);
  }

  lemma OldRequestAnswered()
    ensures Enabled(STALE_3, Receive(ASK_1)) && Next(STALE_3, Receive(ASK_1)) == STALE_4
    ensures Enabled(STALE_4, Request(2)) && Next(STALE_4, Request(2)) == STALE_5
  {
    StepIs(STALE_3, Receive(ASK_1), STALE_4);
    StepIs(STALE_4, Request(2), STALE_5);
  }

  lemma SecondIsLetIn()
    ensures Enabled(STALE_5, Receive(ASK_AFTER)) && Next(STALE_5, Receive(ASK_AFTER)) == STALE_6
    ensures Enabled(STALE_6, Receive(YES_AFTER)) && Next(STALE_6, Receive(YES_AFTER)) == STALE_7
  {
    StepIs(STALE_5, Receive(ASK_AFTER), STALE_6);
    StepIs(STALE_6, Receive(YES_AFTER), STALE_7);
  }

  lemma StaleVoteCounts()
    ensures Enabled(STALE_7, Request(1)) && Next(STALE_7, Request(1)) == STALE_8
    ensures Enabled(STALE_8, Receive(STALE)) && Next(STALE_8, Receive(STALE)) == STALE_9
  {
    StepIs(STALE_7, Request(1), STALE_8);
    StepIs(STALE_8, Receive(STALE), STALE_9);
  }

  /** A run whose only mistake is that peer 1 gives up on 2 in its second move. */
  ghost predicate OneMistake(ws: seq<World>, ms: seq<Move>) {
    && IsFallibleRun(ws, ms) && |ms| >= 2
    && forall k :: 0 <= k < |ms| ==> if k == 1 then ms[k] == Wrong(1, 2, {}) else ms[k].Right?
  }

  lemma ThenStep(before: seq<World>, moves: seq<Move>, s: Step, w: World) returns (ws: seq<World>, ms: seq<Move>)
    requires OneMistake(before, moves) && Enabled(before[|moves|], s) && w == Next(before[|moves|], s)
    ensures OneMistake(ws, ms) && ws[|ms|] == w && ws == before + [w] && |ms| == |moves| + 1
  {
    ws, ms := Then(before, moves, Right(s), w);
  }

  lemma ToAlone() returns (ws: seq<World>, ms: seq<Move>)
    ensures OneMistake(ws, ms) && ws[|ms|] == STALE_1
  {
    EntersAlone();
    ws, ms := FirstRequests();
    ws, ms := Then(ws, ms, Wrong(1, 2, {}), STALE_1);
  }

  lemma ToOldAnswer() returns (ws: seq<World>, ms: seq<Move>)
    ensures OneMistake(ws, ms) && ws[|ms|] == STALE_4
  {
    EntersAlone();
    OldRequestAnswered();
    ws, ms := ToAlone();
    ws, ms := ThenStep(ws, ms, Step.Collect(1), STALE_2);
    ws, ms := ThenStep(ws, ms, Step.Clear(1), STALE_3);
    ws, ms := ThenStep(ws, ms, Receive(ASK_1), STALE_4);
  }

  lemma ToSecondIn() returns (ws: seq<World>, ms: seq<Move>)
    ensures OneMistake(ws, ms) && ws[|ms|] == STALE_7
  {
    OldRequestAnswered();
    SecondIsLetIn();
    ws, ms := ToOldAnswer();
    ws, ms := ThenStep(ws, ms, Request(2), STALE_5);
    ws, ms := ThenStep(ws, ms, Receive(ASK_AFTER), STALE_6);
    ws, ms := ThenStep(ws, ms, Receive(YES_AFTER), STALE_7);
  }

  /** Peer 1 gives up on 2, enters, leaves, and lets 2 in. Its next request awaits 2 again, and the late answer
      to the request that gave up on 2 counts for it. */
  lemma StaleVoteAdmits() returns (ws: seq<World>, ms: seq<Move>)
    ensures OneMistake(ws, ms)
    ensures var v := ws[|ms| - 1]; v.nodes.Keys == {1, 2} && v.nodes[1].pending == {2} && Holds(v, 2)
    ensures Holds(ws[|ms|], 1) && Holds(ws[|ms|], 2)
  {
    StaleVoteCounts();
    ws, ms := ToSecondIn();
    ws, ms := ThenStep(ws, ms, Request(1), STALE_8);
    ws, ms := ThenStep(ws, ms, Receive(STALE), STALE_9);
  }
}
