/** How often others can enter the critical section while a peer waits for it. */
module Overtaking {
  import opened Types
  import opened CriticalSection
  import opened MutexSystem
  import opened MutexInvariant
  import opened MutexTheorems
  import opened Deadlock

  /** How often j entered in the steps from a to m. */
  function Entries(ws: seq<World>, a: nat, m: nat, j: Addr): nat
    requires a <= m < |ws|
  {
    if a == m then 0 else Entries(ws, a, m - 1, j) + One(Enters(ws, m - 1, j))
  }

  /** How often j can still enter before the waiting i does; l is the place of i's permission for j.
      A request of j that is ahead counts once. A later one can be ahead only if j's clock has not
      passed i's stamp and will not do so with the reply that j's present request awaits. */
  function Chances(ni: Cs, nj: Cs, l: Loc): nat
    requires ni.reqTs.Some?
  {
    var ts := ni.reqTs.value;
    if nj.phase != Requesting then One(nj.clock < ts)
    else One(Ahead(ni, nj)) + One(nj.clock < ts && (l.Granted? || (l.Answered? && l.lam < ts)))
  }

  lemma OvertakerMoves(w: World, s: Step, loc: Where, i: Addr, j: Addr)
    requires Inv(w, loc) && Enabled(w, s) && !s.Crash? && Live(w, i) && Live(w, j) && i != j
    requires Waits(w, i) && Waits(Next(w, s), i) && Actor(s) == j && !s.Receive?
    ensures var v := Next(w, s);
            && v.nodes[i].reqTs == w.nodes[i].reqTs && w.nodes[i].reqTs.Some?
            && One(w.nodes[j].phase != InCs && v.nodes[j].phase == InCs)
               + Chances(v.nodes[i], v.nodes[j], Moved(w, s, j, i, loc(j, i)))
               <= Chances(w.nodes[i], w.nodes[j], loc(j, i))
  {
    assert PairOk(w, i, j, loc(i, j)) && PairOk(w, j, i, loc(j, i));
    assert NodeOk(w.nodes[i], i, w.nodes.Keys, w.next);
    assert NodeOk(w.nodes[j], j, w.nodes.Keys, w.next);
  }

  lemma OvertakerReceives(w: World, s: Step, loc: Where, i: Addr, j: Addr)
    requires Inv(w, loc) && Enabled(w, s) && !s.Crash? && Live(w, i) && Live(w, j) && i != j
    requires Waits(w, i) && Waits(Next(w, s), i) && Actor(s) == j && s.Receive?
    ensures var v := Next(w, s);
            && v.nodes[i].reqTs == w.nodes[i].reqTs && w.nodes[i].reqTs.Some?
            && One(w.nodes[j].phase != InCs && v.nodes[j].phase == InCs)
               + Chances(v.nodes[i], v.nodes[j], Moved(w, s, j, i, loc(j, i)))
               <= Chances(w.nodes[i], w.nodes[j], loc(j, i))
  {
    assert PairOk(w, i, j, loc(i, j)) && PairOk(w, j, i, loc(j, i));
    assert NodeOk(w.nodes[i], i, w.nodes.Keys, w.next);
    assert NodeOk(w.nodes[j], j, w.nodes.Keys, w.next);
  }

  lemma WaiterMoves(w: World, s: Step, loc: Where, i: Addr, j: Addr)
    requires Inv(w, loc) && Enabled(w, s) && !s.Crash? && Live(w, i) && Live(w, j) && i != j
    requires Waits(w, i) && Waits(Next(w, s), i) && Actor(s) == i
    ensures var v := Next(w, s);
            && v.nodes[i].reqTs == w.nodes[i].reqTs && w.nodes[i].reqTs.Some?
            && One(w.nodes[j].phase != InCs && v.nodes[j].phase == InCs)
               + Chances(v.nodes[i], v.nodes[j], Moved(w, s, j, i, loc(j, i)))
               <= Chances(w.nodes[i], w.nodes[j], loc(j, i))
  {
    assert PairOk(w, i, j, loc(i, j)) && PairOk(w, j, i, loc(j, i));
    assert NodeOk(w.nodes[i], i, w.nodes.Keys, w.next);
    assert NodeOk(w.nodes[j], j, w.nodes.Keys, w.next);
  }

  lemma StepUsesChance(w: World, s: Step, loc: Where, i: Addr, j: Addr)
    requires Inv(w, loc) && Enabled(w, s) && !s.Crash? && Live(w, i) && Live(w, j) && i != j
    requires Waits(w, i) && Waits(Next(w, s), i)
    ensures var v := Next(w, s);
            && v.nodes[i].reqTs == w.nodes[i].reqTs && w.nodes[i].reqTs.Some?
            && One(w.nodes[j].phase != InCs && v.nodes[j].phase == InCs)
               + Chances(v.nodes[i], v.nodes[j], Moved(w, s, j, i, loc(j, i)))
               <= Chances(w.nodes[i], w.nodes[j], loc(j, i))
  {
    if Actor(s) == j && s.Receive? {
      OvertakerReceives(w, s, loc, i, j);
    } else if Actor(s) == j {
      OvertakerMoves(w, s, loc, i, j);
    } else if Actor(s) == i {
      WaiterMoves(w, s, loc, i, j);
    } else {
      assert NodeOk(w.nodes[i], i, w.nodes.Keys, w.next);
    }
  }

  lemma NextUsesChance(w: World, s: Step, loc: Where, i: Addr, j: Addr) returns (loc': Where)
    requires Inv(w, loc) && Enabled(w, s) && Live(Next(w, s), j) && i != j && Waits(w, i) && Waits(Next(w, s), i)
    ensures var v := Next(w, s);
            && Inv(v, loc') && Live(w, j) && w.nodes[i].reqTs.Some? && v.nodes[i].reqTs.Some?
            && One(w.nodes[j].phase != InCs && v.nodes[j].phase == InCs) + Chances(v.nodes[i], v.nodes[j], loc'(j, i))
               <= Chances(w.nodes[i], w.nodes[j], loc(j, i))
  {
    loc' := StepKeepsInv(w, s, loc);
    assert NodeOk(w.nodes[i], i, w.nodes.Keys, w.next);
    if !s.Crash? {
      StepUsesChance(w, s, loc, i, j);
    }
  }

  lemma {:induction false} RunUsesChances(ws: seq<World>, ss: seq<Step>, a: nat, m: nat, i: Addr, j: Addr) returns (loc: Where)
    requires IsRun(ws, ss) && a <= m < |ws| && Live(ws[m], j) && i != j
    requires forall k :: a <= k <= m ==> Waits(ws[k], i)
    ensures Inv(ws[m], loc) && Waits(ws[m], i) && ws[m].nodes[i].reqTs.Some?
    ensures Entries(ws, a, m, j) + Chances(ws[m].nodes[i], ws[m].nodes[j], loc(j, i)) <= 2
  {
    if a == m {
      loc := RunInv(ws, ss, m);
      assert NodeOk(ws[m].nodes[i], i, ws[m].nodes.Keys, ws[m].next);
    } else {
      assert StepAt(ws, ss, m - 1);
      var before := RunUsesChances(ws, ss, a, m - 1, i, j);
      loc := NextUsesChance(ws[m - 1], ss[m - 1], before, i, j);
    }
  }

  /** Bounded overtaking: while i waits, any other live peer enters at most twice. */
  lemma AtMostTwice(ws: seq<World>, ss: seq<Step>, a: nat, m: nat, i: Addr, j: Addr)
    requires IsRun(ws, ss) && a <= m < |ws| && Live(ws[m], j) && i != j
    requires forall k :: a <= k <= m ==> Waits(ws[k], i)
    ensures Entries(ws, a, m, j) <= 2
  {
    var loc := RunUsesChances(ws, ss, a, m, i, j);
  }
}
