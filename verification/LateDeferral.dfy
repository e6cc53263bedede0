/** Two runs of two peers that get stuck: a comparison made before a release is acted on after it, or
    between the copy and the clearing of the deferred peers. */
module LateDeferral {
  import opened Types
  import opened CriticalSection
  import opened MutexSystem
  import opened MutexTheorems
  import opened Deadlock
  import opened TwoPeers

  /** Peer 1 at and after its release. */
  function Left(deferred: set<Addr>, releasing: bool, tasks: set<Task>): Cs {
    Node(1, 6, Idle, None, tasks, {2, 1}).(deferred := deferred, releasing := releasing)
  }

  const ASK_1 := Env(0, 1, 2, CsRequest(1))
  const YES := Env(1, 2, 1, CsReply(3))
  const ASK_2 := Env(2, 2, 1, CsRequest(4))
  const WEIGHED := Waiting(2, 2, 4)
  const LATE := Loaded(2, 2, 4, Some(1))

  const ASKING := Node(1, 1, Requesting, Some(1), {}, {})
  const WAITER := Node(2, 4, Requesting, Some(4), {}, {0})

  const STATE_1 := Two(ASKING, IDLE_2, {ASK_1}, 1)
  const STATE_2 := Two(ASKING, Node(2, 3, Idle, None, {}, {0}), {YES}, 2)
  const STATE_3 := Two(ASKING, WAITER, {YES, ASK_2}, 3)
  const STATE_4 := Two(Node(1, 5, Requesting, Some(1), {WEIGHED}, {2}), WAITER, {YES}, 4)
  const STATE_5 := Two(Node(1, 5, Requesting, Some(1), {LATE}, {2}), WAITER, {YES}, 5)
  const STATE_6 := Two(Node(1, 6, InCs, Some(1), {LATE}, {2, 1}), WAITER, {}, 6)
  const STATE_7 := Two(Left({}, true, {LATE}), WAITER, {}, 7)

  const CLEARED := Two(Left({}, false, {LATE}), WAITER, {}, 8)
  const DEFERRED := Two(Left({2}, false, {}), WAITER, {}, 9)

  const DOOMED := Two(Left({2}, true, {}), WAITER, {}, 8)
  const LOST := Two(Left({}, false, {}), WAITER, {}, 9)

  lemma FirstSteps()
    ensures Enabled(START, Request(1)) && Next(START, Request(1)) == STATE_1
    ensures Enabled(STATE_1, Receive(ASK_1)) && Next(STATE_1, Receive(ASK_1)) == STATE_2
    ensures Enabled(STATE_2, Request(2)) && Next(STATE_2, Request(2)) == STATE_3
  {
    StepIs(START, Request(1), STATE_1);
    StepIs(STATE_1, Receive(ASK_1), STATE_2);
    StepIs(STATE_2, Request(2), STATE_3);
  }

  lemma HandlerSteps()
    ensures Enabled(STATE_3, Receive(ASK_2)) && Next(STATE_3, Receive(ASK_2)) == STATE_4
    ensures Enabled(STATE_4, Load(1, WEIGHED)) && Next(STATE_4, Load(1, WEIGHED)) == STATE_5
  {
    StepIs(STATE_3, Receive(ASK_2), STATE_4);
    StepIs(STATE_4, Load(1, WEIGHED), STATE_5);
  }

  lemma EntryAndCopy()
    ensures Enabled(STATE_5, Receive(YES)) && Next(STATE_5, Receive(YES)) == STATE_6
    ensures Enabled(STATE_6, Step.Collect(1)) && Next(STATE_6, Step.Collect(1)) == STATE_7
  {
    StepIs(STATE_5, Receive(YES), STATE_6);
    StepIs(STATE_6, Step.Collect(1), STATE_7);
  }

  lemma ActAfterRelease()
    ensures Enabled(STATE_7, Step.Clear(1)) && Next(STATE_7, Step.Clear(1)) == CLEARED
    ensures Enabled(CLEARED, Act(1, LATE)) && Next(CLEARED, Act(1, LATE)) == DEFERRED
  {
    StepIs(STATE_7, Step.Clear(1), CLEARED);
    StepIs(CLEARED, Act(1, LATE), DEFERRED);
  }

  lemma ActInRelease()
    ensures Enabled(STATE_7, Act(1, LATE)) && Next(STATE_7, Act(1, LATE)) == DOOMED
    ensures Enabled(DOOMED, Step.Clear(1)) && Next(DOOMED, Step.Clear(1)) == LOST
  {
    StepIs(STATE_7, Act(1, LATE), DOOMED);
    StepIs(DOOMED, Step.Clear(1), LOST);
  }

  lemma ToWeighing() returns (ws: seq<World>, ss: seq<Step>)
    ensures IsRun(ws, ss) && ws[|ss|] == STATE_4
  {
    StartsRight();
    FirstSteps();
    HandlerSteps();
    ws, ss := Then([START], [], Request(1), STATE_1);
    ws, ss := Then(ws, ss, Receive(ASK_1), STATE_2);
    ws, ss := Then(ws, ss, Request(2), STATE_3);
    ws, ss := Then(ws, ss, Receive(ASK_2), STATE_4);
  }

  lemma ToCopy() returns (ws: seq<World>, ss: seq<Step>)
    ensures IsRun(ws, ss) && ws[|ss|] == STATE_7
  {
    HandlerSteps();
    EntryAndCopy();
    ws, ss := ToWeighing();
    ws, ss := Then(ws, ss, Load(1, WEIGHED), STATE_5);
    ws, ss := Then(ws, ss, Receive(YES), STATE_6);
    ws, ss := Then(ws, ss, Step.Collect(1), STATE_7);
  }

  /** However the run goes on, i waits for as long as i and j live. */
  ghost predicate WaitsForGood(ws: seq<World>, i: Addr, j: Addr) {
    forall us, ts, m: nat :: IsRun(us, ts) && ws <= us && |ws| - 1 <= m < |us| && Live(us[m], i) && Live(us[m], j) ==>
      Waits(us[m], i)
  }

  lemma StrandedWaitsForGood(ws: seq<World>, ss: seq<Step>, i: Addr, j: Addr)
    requires IsRun(ws, ss) && Stranded(ws[|ss|], i, j)
    ensures WaitsForGood(ws, i, j)
  {
    forall us, ts, m: nat | IsRun(us, ts) && ws <= us && |ws| - 1 <= m < |us| && Live(us[m], i) && Live(us[m], j)
      ensures Waits(us[m], i)
    {
      assert us[|ss|] == ws[|ss|];
      StrandedForGood(us, ts, |ss|, m, i, j);
    }
  }

  lemma EndsStuck(w: World, deferred: set<Addr>)
    requires deferred <= {2} && w == Two(Left(deferred, false, {}), WAITER, {}, 9)
    ensures Settled(w) && Waits(w, 2) && Stranded(w, 2, 1)
  {
    if 2 !in deferred {
      assert RequestsInFlight(w, 2, 1) == {} && RepliesInFlight(w, 2, 1) == {} && Comparisons(w, 2, 1) == {};
    }
  }

  /** Peer 1 compares 2's request with its own, enters, releases, and only then defers the request:
      everybody is idle, nothing is under way, and peer 2 waits for good. */
  lemma GetsStuck() returns (ws: seq<World>, ss: seq<Step>)
    ensures IsRun(ws, ss) && Settled(ws[|ss|]) && WaitsForGood(ws, 2, 1)
    ensures Live(ws[|ss|], 1) && Live(ws[|ss|], 2) && Waits(ws[|ss|], 2) && ws[|ss|].nodes[1].deferred == {2}
  {
    ActAfterRelease();
    ws, ss := ToCopy();
    ws, ss := Then(ws, ss, Step.Clear(1), CLEARED);
    ws, ss := Then(ws, ss, Act(1, LATE), DEFERRED);
    EndsStuck(DEFERRED, {2});
    StrandedWaitsForGood(ws, ss, 2, 1);
  }

  /** The same with the deferral between the two halves of the release: it is cleared away, no peer
      defers anybody, and peer 2 waits for good. */
  lemma GetsLost() returns (ws: seq<World>, ss: seq<Step>)
    ensures IsRun(ws, ss) && Settled(ws[|ss|]) && WaitsForGood(ws, 2, 1)
    ensures Live(ws[|ss|], 1) && Live(ws[|ss|], 2) && Waits(ws[|ss|], 2)
    ensures forall p :: p in ws[|ss|].nodes ==> ws[|ss|].nodes[p].deferred == {}
  {
    ActInRelease();
    ws, ss := ToCopy();
    ws, ss := Then(ws, ss, Act(1, LATE), DOOMED);
    ws, ss := Then(ws, ss, Step.Clear(1), LOST);
    EndsStuck(LOST, {});
    StrandedWaitsForGood(ws, ss, 2, 1);
  }
}
