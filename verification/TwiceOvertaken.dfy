/** A run of two peers in which one enters twice while the other waits: the bound on overtaking is tight. */
module TwiceOvertaken {
  import opened Types
  import opened CriticalSection
  import opened MutexSystem
  import opened MutexTheorems
  import opened Deadlock
  import opened Overtaking
  import opened TwoPeers

  const ASK_1 := Env(0, 1, 2, CsRequest(1))
  const YES_1 := Env(1, 2, 1, CsReply(3))
  const ASK_2 := Env(3, 2, 1, CsRequest(101))
  const ASK_3 := Env(7, 1, 2, CsRequest(5))
  const YES_3 := Env(10, 2, 1, CsReply(103))
  const WEIGHED := Waiting(7, 1, 5)
  const LOADED := Loaded(7, 1, 5, Some(101))

  const ASKING := Node(1, 1, Requesting, Some(1), {}, {})
  const WAITER := Node(2, 101, Requesting, Some(101), {}, {0})
  const AGAIN := Node(1, 5, Requesting, Some(5), {}, {1})

  const STATE_1 := Two(ASKING, IDLE_2, {ASK_1}, 1)
  const STATE_2 := Two(ASKING, Node(2, 3, Idle, None, {}, {0}), {YES_1}, 2)
  const STATE_3 := Two(ASKING, Node(2, 100, Idle, None, {}, {0}), {YES_1}, 3)
  const STATE_4 := Two(ASKING, WAITER, {YES_1, ASK_2}, 4)
  const STATE_5 := Two(Node(1, 4, InCs, Some(1), {}, {1}), WAITER, {ASK_2}, 5)
  const STATE_6 := Two(Node(1, 4, Idle, None, {}, {1}).(releasing := true), WAITER, {ASK_2}, 6)
  const STATE_7 := Two(Node(1, 4, Idle, None, {}, {1}), WAITER, {ASK_2}, 7)
  const STATE_8 := Two(AGAIN, WAITER, {ASK_2, ASK_3}, 8)
  const STATE_9 := Two(AGAIN, Node(2, 102, Requesting, Some(101), {WEIGHED}, {0, 7}), {ASK_2}, 9)
  const STATE_10 := Two(AGAIN, Node(2, 102, Requesting, Some(101), {LOADED}, {0, 7}), {ASK_2}, 10)
  const STATE_11 := Two(AGAIN, Node(2, 103, Requesting, Some(101), {}, {0, 7}), {ASK_2, YES_3}, 11)
  const STATE_12 := Two(Node(1, 104, InCs, Some(5), {}, {1, 10}), Node(2, 103, Requesting, Some(101), {}, {0, 7}), {ASK_2}, 12)

  lemma Steps1()
    ensures Enabled(START, Request(1)) && Next(START, Request(1)) == STATE_1
    ensures Enabled(STATE_1, Receive(ASK_1)) && Next(STATE_1, Receive(ASK_1)) == STATE_2
  {
    StepIs(START, Request(1), STATE_1);
    StepIs(STATE_1, Receive(ASK_1), STATE_2);
  }

  lemma Steps2()
    ensures Enabled(STATE_2, Advance(2, 100)) && Next(STATE_2, Advance(2, 100)) == STATE_3
    ensures Enabled(STATE_3, Request(2)) && Next(STATE_3, Request(2)) == STATE_4
  {
    StepIs(STATE_2, Advance(2, 100), STATE_3);
    StepIs(STATE_3, Request(2), STATE_4);
  }

  lemma Steps3()
    ensures Enabled(STATE_4, Receive(YES_1)) && Next(STATE_4, Receive(YES_1)) == STATE_5
    ensures Enabled(STATE_5, Step.Collect(1)) && Next(STATE_5, Step.Collect(1)) == STATE_6
    ensures Enabled(STATE_6, Step.Clear(1)) && Next(STATE_6, Step.Clear(1)) == STATE_7
  {
    StepIs(STATE_4, Receive(YES_1), STATE_5);
    StepIs(STATE_5, Step.Collect(1), STATE_6);
    StepIs(STATE_6, Step.Clear(1), STATE_7);
  }

  lemma Steps4()
    ensures Enabled(STATE_7, Request(1)) && Next(STATE_7, Request(1)) == STATE_8
    ensures Enabled(STATE_8, Receive(ASK_3)) && Next(STATE_8, Receive(ASK_3)) == STATE_9
  {
    StepIs(STATE_7, Request(1), STATE_8);
    StepIs(STATE_8, Receive(ASK_3), STATE_9);
  }

  lemma Steps5()
    ensures Enabled(STATE_9, Load(2, WEIGHED)) && Next(STATE_9, Load(2, WEIGHED)) == STATE_10
    ensures Enabled(STATE_10, Act(2, LOADED)) && Next(STATE_10, Act(2, LOADED)) == STATE_11
    ensures Enabled(STATE_11, Receive(YES_3)) && Next(STATE_11, Receive(YES_3)) == STATE_12
  {
    StepIs(STATE_9, Load(2, WEIGHED), STATE_10);
    StepIs(STATE_10, Act(2, LOADED), STATE_11);
    StepIs(STATE_11, Receive(YES_3), STATE_12);
  }

  lemma ToAnswer() returns (ws: seq<World>, ss: seq<Step>)
    ensures IsRun(ws, ss) && |ss| == 2 && ws[2] == STATE_2
  {
    StartsRight();
    Steps1();
    ws, ss := Then([START], [], Request(1), STATE_1);
    ws, ss := Then(ws, ss, Receive(ASK_1), STATE_2);
  }

  lemma ToWaiting() returns (ws: seq<World>, ss: seq<Step>)
    ensures IsRun(ws, ss) && |ss| == 4 && ws[4] == STATE_4
  {
    Steps2();
    ws, ss := ToAnswer();
    ws, ss := Then(ws, ss, Advance(2, 100), STATE_3);
    ws, ss := Then(ws, ss, Request(2), STATE_4);
  }

  /** How far 1 has got while 2 waits, from state 4 of the run on. */
  ghost predicate Overtaken(ws: seq<World>, ss: seq<Step>, times: nat) {
    && IsRun(ws, ss) && |ss| >= 4
    && (forall k :: 4 <= k < |ws| ==> Waits(ws[k], 2))
    && Entries(ws, 4, |ss|, 1) == times
  }

  lemma {:induction false} EntriesOfPrefix(ws: seq<World>, us: seq<World>, a: nat, m: nat, j: Addr)
    requires ws <= us && a <= m < |ws|
    ensures Entries(us, a, m, j) == Entries(ws, a, m, j)
  {
    if a < m {
      EntriesOfPrefix(ws, us, a, m - 1, j);
    }
  }

  lemma ThenWaits(before: seq<World>, steps: seq<Step>, s: Step, w: World, times: nat)
    returns (ws: seq<World>, ss: seq<Step>, entries: nat)
    requires Overtaken(before, steps, times) && Enabled(before[|steps|], s) && w == Next(before[|steps|], s) && Waits(w, 2)
    ensures Overtaken(ws, ss, entries) && ws[|ss|] == w && ws[4] == before[4]
    ensures entries == times + One(1 in before[|steps|].nodes && before[|steps|].nodes[1].phase != InCs && Holds(w, 1))
  {
    ws, ss := Then(before, steps, s, w);
    EntriesOfPrefix(before, ws, 4, |steps|, 1);
    assert Live(w, 2);
    entries := Entries(ws, 4, |ss|, 1);
  }

  lemma EntersOnce() returns (ws: seq<World>, ss: seq<Step>)
    ensures Overtaken(ws, ss, 1) && ws[|ss|] == STATE_7
  {
    Steps3();
    ws, ss := ToWaiting();
    var n;
    ws, ss, n := ThenWaits(ws, ss, Receive(YES_1), STATE_5, 0);
    ws, ss, n := ThenWaits(ws, ss, Step.Collect(1), STATE_6, n);
    ws, ss, n := ThenWaits(ws, ss, Step.Clear(1), STATE_7, n);
  }

  lemma AsksAgain() returns (ws: seq<World>, ss: seq<Step>)
    ensures Overtaken(ws, ss, 1) && ws[|ss|] == STATE_9
  {
    Steps4();
    ws, ss := EntersOnce();
    var n;
    ws, ss, n := ThenWaits(ws, ss, Request(1), STATE_8, 1);
    ws, ss, n := ThenWaits(ws, ss, Receive(ASK_3), STATE_9, n);
  }

  /** Peer 1 enters on the answer it got before 2's request, and again because its next stamp is still
      below 2's, while 2 waits all the time. */
  lemma EntersTwice() returns (ws: seq<World>, ss: seq<Step>)
    ensures IsRun(ws, ss) && |ss| >= 4
    ensures forall k :: 4 <= k < |ws| ==> Waits(ws[k], 2)
    ensures Entries(ws, 4, |ss|, 1) == 2
  {
    Steps5();
    ws, ss := AsksAgain();
    var n;
    ws, ss, n := ThenWaits(ws, ss, Load(2, WEIGHED), STATE_10, 1);
    ws, ss, n := ThenWaits(ws, ss, Act(2, LOADED), STATE_11, n);
    ws, ss, n := ThenWaits(ws, ss, Receive(YES_3), STATE_12, n);
  }
}
