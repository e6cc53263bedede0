/** Two peers, for the runs that show what can go wrong. */
module TwoPeers {
  import opened Types
  import opened CriticalSection
  import opened MutexSystem

  /** Peers 1 and 2 with their variables, no crash. */
  function Two(one: Cs, two: Cs, net: set<Envelope>, next: nat): World {
    World(map[1 := one, 2 := two], net, next, {})
  }

  /** A peer that knows the other and, if it requests, awaits its vote. */
  function Node(me: Addr, clock: int, phase: Phase, reqTs: Option<int>, tasks: set<Task>, seen: set<nat>): Cs {
    var other := {3 - me};
    Cs(me, clock, phase, reqTs, if phase == Requesting then other else {}, {}, {}, false, tasks, other, seen)
  }

  const IDLE_1 := Node(1, 0, Idle, None, {}, {})
  const IDLE_2 := Node(2, 0, Idle, None, {}, {})
  const START := Two(IDLE_1, IDLE_2, {}, 0)

  lemma StartsRight()
    ensures Init(START)
  {
    assert InitNode(START.nodes[1], 1, START.nodes.Keys, 0) && InitNode(START.nodes[2], 2, START.nodes.Keys, 0);
  }
}
