/** Why the budget has to be N - 1: nothing less reaches everyone, and distance is not the measure. */
module FloodBudget {
  import opened Types
  import opened Flooding
  import opened FloodReach

  function Row(n: nat): (r: set<Addr>)
    ensures forall p :: p in r <==> 0 <= p < n
    ensures |r| == n
  {
    if n == 0 then {} else Row(n - 1) + {n - 1}
  }

  /** Peers 0, 1, ..., n - 1 in a row, each knowing the next and the previous one. */
  function Line(n: nat): map<Addr, set<Addr>> {
    map p | p in Row(n) :: set q | q in Row(n) && (q == p - 1 || q == p + 1)
  }

  /** No edge leads more than one place further from peer 0. */
  ghost predicate NoJump(g: map<Addr, set<Addr>>) {
    forall p, q :: p in g && q in g[p] ==> p >= 0 && q <= p + 1
  }

  lemma {:induction false} WalkWithoutJumps(g: map<Addr, set<Addr>>, walk: seq<Addr>)
    requires NoJump(g) && IsWalk(g, walk) && walk[0] == 0
    ensures walk[|walk| - 1] <= |walk| - 1
  {
    if |walk| > 1 {
      WalkWithoutJumps(g, walk[..|walk| - 1]);
      assert walk[|walk| - 1] in g[walk[|walk| - 2]];
    }
  }

  lemma {:induction false} RunKeepsNoJump(fs: seq<Flood>, ss: seq<FloodStep>, k: nat)
    requires IsFloodRun(fs, ss) && k < |fs| && (forall m :: 0 <= m < |ss| ==> !ss[m].Learn?)
    requires NoJump(fs[0].neighbors) && fs[0].origin == 0 && forall p :: p in fs[0].neighbors ==> p >= 0
    ensures NoJump(fs[k].neighbors) && fs[k].origin == 0 && forall p :: p in fs[k].neighbors ==> p >= 0
  {
    if k > 0 {
      RunKeepsNoJump(fs, ss, k - 1);
    }
  }

  /** On a row of N peers a budget below N - 1 leaves out, in every run, the peer that is one place further
      away, although a walk leads there: so N - 1 is the least budget that always suffices. */
  lemma SmallerBudgetFails(fs: seq<Flood>, ss: seq<FloodStep>, n: nat, budget: nat, k: nat)
    requires IsFloodRun(fs, ss) && k < |fs| && forall m :: 0 <= m < |ss| ==> !ss[m].Learn?
    requires fs[0].neighbors == Line(n) && fs[0].origin == 0 && Originated(fs[0], budget) && budget < n - 1
    ensures |fs[0].neighbors.Keys| == n && budget + 1 in fs[0].neighbors
    ensures fs[k].handled[budget + 1] == 0
    ensures WalkTo(fs[0].neighbors, 0, budget + 1, budget + 1)
  {
    assert fs[0].neighbors.Keys == Row(n);
    RowWalk(n, budget + 1);
    RunKeepsNoJump(fs, ss, k);
    HopBound(fs, ss, budget, k);
    if budget + 1 in fs[k].handled {
      var hops :| 0 <= hops <= budget && WalkTo(fs[k].neighbors, 0, budget + 1, hops);
      var walk :| IsWalk(fs[k].neighbors, walk) && walk[0] == 0 && walk[|walk| - 1] == budget + 1 && |walk| - 1 == hops;
      WalkWithoutJumps(fs[k].neighbors, walk);
      assert false;
    }
  }

  lemma {:induction false} RowWalk(n: nat, m: nat)
    requires m < n
    ensures WalkTo(Line(n), 0, m, m)
  {
    if m == 0 {
      assert IsWalk(Line(n), [0]);
    } else {
      RowWalk(n, m - 1);
      WalkExtends(Line(n), 0, m - 1, m, m - 1);
    }
  }

  /* ---- A peer two hops away that a budget of two misses ---- */

  /** Peers 0, 1 and 2 know each other; 3 hangs off 2. */
  const SQUARE: map<Addr, set<Addr>> := map[0 := {1, 2}, 1 := {0, 2}, 2 := {0, 1, 3}, 3 := {2}]

  function At(seen: set<Addr>, handled: multiset<Addr>, net: seq<Copy>): Flood {
    Flood(0, SQUARE, seen, handled, net)
  }

  lemma PeerOneRelays()
    ensures var f := At({}, multiset{}, [Copy(0, 1, 1), Copy(0, 2, 1)]);
            FloodEnabled(f, Handle(0, [2])) && FloodNext(f, Handle(0, [2])) == At({1}, multiset{1}, [Copy(0, 2, 1), Copy(1, 2, 0)])
  {
    assert Forward(1, 1, [2]) == [Copy(1, 2, 0)];
    assert SQUARE[1] + {0} == SQUARE[1];
  }

  lemma PeerTwoTakesTheSpentCopy()
    ensures var f := At({1}, multiset{1}, [Copy(0, 2, 1), Copy(1, 2, 0)]);
            FloodEnabled(f, Handle(1, [1, 3])) && FloodNext(f, Handle(1, [1, 3])) == At({1, 2}, multiset{1, 2}, [Copy(0, 2, 1)])
  {
    assert Forward(2, 0, [1, 3]) == [];
    assert SQUARE[2] + {0} == SQUARE[2];
  }

  lemma PeerTwoDropsTheOther()
    ensures var f := At({1, 2}, multiset{1, 2}, [Copy(0, 2, 1)]);
            FloodEnabled(f, Handle(0, [1, 3])) && FloodNext(f, Handle(0, [1, 3])) == At({1, 2}, multiset{1, 2}, [])
  {
    assert SQUARE[2] + {0} == SQUARE[2];
  }

  lemma MissOriginates()
    ensures Originated(At({}, multiset{}, [Copy(0, 1, 1), Copy(0, 2, 1)]), 2)
  {
    var f := At({}, multiset{}, [Copy(0, 1, 1), Copy(0, 2, 1)]);
    assert Lists([1, 2], f.neighbors[f.origin]) && f.net == Forward(0, 2, [1, 2]);
  }

  lemma MissWalk()
    ensures WalkTo(SQUARE, 0, 3, 2)
  {
    var walk := [0, 2, 3];
    assert IsWalk(SQUARE, walk) && walk[0] == 0 && walk[|walk| - 1] == 3 && |walk| - 1 == 2;
  }

  lemma RunExtends(fs: seq<Flood>, ss: seq<FloodStep>, s: FloodStep, f: Flood)
    requires IsFloodRun(fs, ss) && FloodEnabled(fs[|ss|], s) && f == FloodNext(fs[|ss|], s)
    ensures IsFloodRun(fs + [f], ss + [s]) && (fs + [f])[0] == fs[0] && (fs + [f])[|ss + [s]|] == f
  {
  }

  /** Peer 2 takes the copy that came through 1 first, with nothing left to spend, and drops the one
      that could still have been passed on. */
  lemma ShortestPathCanLose() returns (fs: seq<Flood>, ss: seq<FloodStep>)
    ensures IsFloodRun(fs, ss) && Originated(fs[0], 2) && fs[0].neighbors == SQUARE && fs[0].origin == 0
    ensures forall m :: 0 <= m < |ss| ==> ss[m].Handle?
    ensures WalkTo(SQUARE, 0, 3, 2) && fs[|ss|].net == [] && fs[|ss|].handled[3] == 0
  {
    MissOriginates();
    MissWalk();
    fs, ss := [At({}, multiset{}, [Copy(0, 1, 1), Copy(0, 2, 1)])], [];
    PeerOneRelays();
    var f := At({1}, multiset{1}, [Copy(0, 2, 1), Copy(1, 2, 0)]);
    RunExtends(fs, ss, Handle(0, [2]), f);
    fs, ss := fs + [f], ss + [Handle(0, [2])];
    PeerTwoTakesTheSpentCopy();
    f := At({1, 2}, multiset{1, 2}, [Copy(0, 2, 1)]);
    RunExtends(fs, ss, Handle(1, [1, 3]), f);
    fs, ss := fs + [f], ss + [Handle(1, [1, 3])];
    PeerTwoDropsTheOther();
    f := At({1, 2}, multiset{1, 2}, []);
    RunExtends(fs, ss, Handle(0, [1, 3]), f);
    fs, ss := fs + [f], ss + [Handle(0, [1, 3])];
  }

  /* ---- A forgotten id ---- */

  /** Peers 1 and 2 know the origin only. */
  const FORK: map<Addr, set<Addr>> := map[0 := {1, 2}, 1 := {0}, 2 := {0}]
  /** The same, after 1 has learned of 2. */
  const LEARNED: map<Addr, set<Addr>> := map[0 := {1, 2}, 1 := {0, 2}, 2 := {0}]

  const FORK_SENT := Flood(0, FORK, {}, multiset{}, [Copy(0, 1, 1), Copy(0, 2, 1)])
  const FORK_LEARNED := Flood(0, LEARNED, {}, multiset{}, [Copy(0, 1, 1), Copy(0, 2, 1)])
  const FORK_RELAYED := Flood(0, LEARNED, {1}, multiset{1}, [Copy(0, 2, 1), Copy(1, 2, 0)])
  const FORK_HANDLED := Flood(0, LEARNED, {1, 2}, multiset{1, 2}, [Copy(1, 2, 0)])
  const FORK_FORGOT := Flood(0, LEARNED, {1}, multiset{1, 2}, [Copy(1, 2, 0)])
  const FORK_AGAIN := Flood(0, LEARNED, {1, 2}, multiset{1, 2, 2}, [])

  lemma ForkStarts()
    ensures Originated(FORK_SENT, 2)
    ensures FloodEnabled(FORK_SENT, Learn(1, 2)) && FloodNext(FORK_SENT, Learn(1, 2)) == FORK_LEARNED
  {
    assert Lists([1, 2], FORK[0]) && FORK_SENT.net == Forward(0, 2, [1, 2]);
    assert FORK[1] + {2} == {0, 2};
    assert FORK[1 := {0, 2}] == LEARNED;
  }

  lemma ForkRelays()
    ensures FloodEnabled(FORK_LEARNED, Handle(0, [2])) && FloodNext(FORK_LEARNED, Handle(0, [2])) == FORK_RELAYED
    ensures FloodEnabled(FORK_RELAYED, Handle(0, [])) && FloodNext(FORK_RELAYED, Handle(0, [])) == FORK_HANDLED
  {
    assert Forward(1, 1, [2]) == [Copy(1, 2, 0)] && Forward(2, 1, []) == [];
    assert LEARNED[1] + {0} == LEARNED[1] && LEARNED[2] + {0} == LEARNED[2];
    assert LEARNED[1 := LEARNED[1]] == LEARNED && LEARNED[2 := LEARNED[2]] == LEARNED;
  }

  lemma ForkRepeats()
    ensures FloodEnabled(FORK_HANDLED, Forget(2)) && FloodNext(FORK_HANDLED, Forget(2)) == FORK_FORGOT
    ensures FloodEnabled(FORK_FORGOT, Handle(0, [])) && FloodNext(FORK_FORGOT, Handle(0, [])) == FORK_AGAIN
  {
    assert Forward(2, 0, []) == [];
    assert LEARNED[2] + {0} == LEARNED[2] && LEARNED[2 := LEARNED[2]] == LEARNED;
    assert {1, 2} - {2} == {1};
  }

  /** A peer whose log forgets the id between two copies handles the message twice; one of the copies came
      through a neighbor that another peer had only just learned of. */
  lemma ForgottenIdIsHandledAgain() returns (fs: seq<Flood>, ss: seq<FloodStep>)
    ensures IsFloodRun(fs, ss) && Originated(fs[0], 2) && fs[0].neighbors == FORK && fs[0].origin == 0
    ensures fs[|ss|].net == [] && fs[|ss|].handled[2] == 2
  {
    ForkStarts();
    ForkRelays();
    ForkRepeats();
    fs, ss := [FORK_SENT], [];
    RunExtends(fs, ss, Learn(1, 2), FORK_LEARNED);
    fs, ss := fs + [FORK_LEARNED], ss + [Learn(1, 2)];
    RunExtends(fs, ss, Handle(0, [2]), FORK_RELAYED);
    fs, ss := fs + [FORK_RELAYED], ss + [Handle(0, [2])];
    RunExtends(fs, ss, Handle(0, []), FORK_HANDLED);
    fs, ss := fs + [FORK_HANDLED], ss + [Handle(0, [])];
    RunExtends(fs, ss, Forget(2), FORK_FORGOT);
    fs, ss := fs + [FORK_FORGOT], ss + [Forget(2)];
    RunExtends(fs, ss, Handle(0, []), FORK_AGAIN);
    fs, ss := fs + [FORK_AGAIN], ss + [Handle(0, [])];
  }
}
