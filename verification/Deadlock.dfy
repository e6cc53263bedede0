/** When the protocol can get stuck: exactly when a deferral was recorded too late. */
module Deadlock {
  import opened Types
  import opened CriticalSection
  import opened MutexSystem
  import opened MutexInvariant
  import opened MutexTheorems

  /** Nothing is left to happen among the live peers without a new request: no critical-section
      message, handler thread or release is under way, nobody is in or about to enter, and every crash
      has been noticed. */
  ghost predicate Settled(w: World) {
    && (forall p :: Live(w, p) ==> var n := w.nodes[p];
          && n.phase != InCs && (n.phase == Requesting ==> n.pending != {})
          && n.tasks == {} && n.owed == {} && !n.releasing && n.pending !! w.dead)
    && (forall e :: e in w.net && Live(w, e.from) && Live(w, e.to) ==> e.body.Data?)
  }

  ghost predicate Waits(w: World, p: Addr) {
    Live(w, p) && w.nodes[p].phase == Requesting
  }

  predicate Ahead(ni: Cs, nj: Cs) {
    ni.reqTs.Some? && nj.reqTs.Some? && Before(Prio(nj), Prio(ni))
  }

  /** j neither holds nor awaits the section ahead of i, and yet keeps i's request deferred or has lost it. */
  predicate Stranded(w: World, i: Addr, j: Addr) {
    && Live(w, i) && Live(w, j) && i != j
    && w.nodes[i].reqTs.Some? && !Ahead(w.nodes[i], w.nodes[j])
    && (i in w.nodes[j].deferred - w.nodes[j].owed || Permissions(w, i, j) == 0)
  }

  /** A comparison that i's request lost is acted on at j, although the stamp it lost to is not, or no
      longer, that of a request of j. */
  predicate LateAct(w: World, s: Step, i: Addr, j: Addr) {
    && s.Act? && s.t.Loaded? && s.p == j && s.t.from == i && j in w.nodes
    && !Wins(s.t, w.nodes[j].me) && s.t.mine != w.nodes[j].reqTs
  }

  /* ---- One step ---- */

  predicate IsStuck(l: Loc) {
    l.Held? || l.Doomed? || l.Lost?
  }

  lemma StrandedByPlace(w: World, loc: Where, i: Addr, j: Addr)
    requires Inv(w, loc) && Live(w, i) && Live(w, j) && i != j
    ensures Stranded(w, i, j) <==> IsStuck(loc(i, j)) && !Ahead(w.nodes[i], w.nodes[j])
    ensures Stranded(w, i, j) ==> Waits(w, i)
  {
    OnePermission(w, loc, i, j);
    assert Pair(w.nodes[i], w.nodes[j], w.net, loc(i, j));
    assert NodeOk(w.nodes[i], i, w.nodes.Keys, w.next);
    assert NodeOk(w.nodes[j], j, w.nodes.Keys, w.next);
  }

  /** What a step of a handler at the voter does to a request that is, or gets, stuck with it. */
  lemma HandlerStuckStep(w: World, s: Step, loc: Where, i: Addr, j: Addr)
    requires Inv(w, loc) && Enabled(w, s) && !s.Crash? && Live(w, i) && Live(w, j) && i != j && Actor(s) == j && (s.Receive? || s.Act?)
    ensures var v := Next(w, s);
            IsStuck(Moved(w, s, i, j, loc(i, j))) && !Ahead(v.nodes[i], v.nodes[j]) <==>
            (IsStuck(loc(i, j)) && !Ahead(w.nodes[i], w.nodes[j])) || LateAct(w, s, i, j)
  {
    assert Pair(w.nodes[i], w.nodes[j], w.net, loc(i, j));
    assert NodeOk(w.nodes[i], i, w.nodes.Keys, w.next);
    assert NodeOk(w.nodes[j], j, w.nodes.Keys, w.next);
    if w.nodes[j].phase == InCs {
      HolderIsForemost(w, loc, j);
    }
  }

  lemma VoterStuckStep(w: World, s: Step, loc: Where, i: Addr, j: Addr)
    requires Inv(w, loc) && Enabled(w, s) && !s.Crash? && Live(w, i) && Live(w, j) && i != j && Actor(s) == j && !s.Receive? && !s.Act?
    ensures var v := Next(w, s);
            IsStuck(Moved(w, s, i, j, loc(i, j))) && !Ahead(v.nodes[i], v.nodes[j]) <==>
            (IsStuck(loc(i, j)) && !Ahead(w.nodes[i], w.nodes[j])) || LateAct(w, s, i, j)
  {
    assert Pair(w.nodes[i], w.nodes[j], w.net, loc(i, j));
    assert NodeOk(w.nodes[i], i, w.nodes.Keys, w.next);
    assert NodeOk(w.nodes[j], j, w.nodes.Keys, w.next);
    if w.nodes[j].phase == InCs {
      HolderIsForemost(w, loc, j);
    }
  }

  lemma OtherStuckStep(w: World, s: Step, loc: Where, i: Addr, j: Addr)
    requires Inv(w, loc) && Enabled(w, s) && !s.Crash? && Live(w, i) && Live(w, j) && i != j && Actor(s) != j
    ensures var v := Next(w, s);
            IsStuck(Moved(w, s, i, j, loc(i, j))) && !Ahead(v.nodes[i], v.nodes[j]) <==>
            (IsStuck(loc(i, j)) && !Ahead(w.nodes[i], w.nodes[j])) || LateAct(w, s, i, j)
  {
    assert Pair(w.nodes[i], w.nodes[j], w.net, loc(i, j));
    assert NodeOk(w.nodes[i], i, w.nodes.Keys, w.next);
    assert NodeOk(w.nodes[j], j, w.nodes.Keys, w.next);
  }

  lemma CrashStrandsNobody(w: World, s: Step, loc: Where, i: Addr, j: Addr)
    requires Inv(w, loc) && Enabled(w, s) && s.Crash? && Live(Next(w, s), i) && Live(Next(w, s), j) && i != j
    ensures Stranded(Next(w, s), i, j) <==> Stranded(w, i, j)
  {
    var loc' := StepKeepsInv(w, s, loc);
    StrandedByPlace(w, loc, i, j);
    StrandedByPlace(Next(w, s), loc', i, j);
  }

  /** A late deferral strands its request, what is stranded stays so, and nothing else strands anybody. */
  lemma StrandedStep(w: World, s: Step, loc: Where, i: Addr, j: Addr)
    requires Inv(w, loc) && Enabled(w, s) && Live(Next(w, s), i) && Live(Next(w, s), j) && i != j
    ensures Stranded(Next(w, s), i, j) <==> Stranded(w, i, j) || LateAct(w, s, i, j)
  {
    if s.Crash? {
      CrashStrandsNobody(w, s, loc, i, j);
    } else {
      var loc' := StepKeepsInv(w, s, loc);
      StrandedByPlace(w, loc, i, j);
      StrandedByPlace(Next(w, s), loc', i, j);
      if Actor(s) == j && (s.Receive? || s.Act?) {
        HandlerStuckStep(w, s, loc, i, j);
      } else if Actor(s) == j {
        VoterStuckStep(w, s, loc, i, j);
      } else {
        OtherStuckStep(w, s, loc, i, j);
      }
    }
  }

  /* ---- Whole runs ---- */

  ghost predicate LateBefore(ws: seq<World>, ss: seq<Step>, k: nat, i: Addr, j: Addr)
    requires k <= |ss| <= |ws|
  {
    exists m :: 0 <= m < k && LateAct(ws[m], ss[m], i, j)
  }

  /** Of two live peers, one has stranded the other exactly when it recorded a deferral of it too late. */
  lemma {:induction false} StrandedIffLate(ws: seq<World>, ss: seq<Step>, k: nat, i: Addr, j: Addr)
    requires IsRun(ws, ss) && k < |ws| && Live(ws[k], i) && Live(ws[k], j) && i != j
    ensures Stranded(ws[k], i, j) <==> LateBefore(ws, ss, k, i, j)
  {
    if k == 0 {
      assert ws[0].nodes[i].reqTs == None;
    } else {
      StrandedRunStep(ws, ss, k - 1, i, j);
      StrandedIffLate(ws, ss, k - 1, i, j);
      assert LateBefore(ws, ss, k, i, j) <==> LateBefore(ws, ss, k - 1, i, j) || LateAct(ws[k - 1], ss[k - 1], i, j);
    }
  }

  lemma StrandedRunStep(ws: seq<World>, ss: seq<Step>, k: nat, i: Addr, j: Addr)
    requires IsRun(ws, ss) && k < |ss| && Live(ws[k + 1], i) && Live(ws[k + 1], j) && i != j
    ensures Live(ws[k], i) && Live(ws[k], j)
    ensures Stranded(ws[k + 1], i, j) <==> Stranded(ws[k], i, j) || LateAct(ws[k], ss[k], i, j)
  {
    assert StepAt(ws, ss, k);
    LiveBefore(ws, ss, k, k + 1, i);
    LiveBefore(ws, ss, k, k + 1, j);
    var loc := RunInv(ws, ss, k);
    StrandedStep(ws[k], ss[k], loc, i, j);
  }

  /** Whatever happens later, and however often the two peers request and release: a stranded peer waits
      for as long as the one that stranded it lives. */
  lemma StrandedForGood(ws: seq<World>, ss: seq<Step>, k: nat, m: nat, i: Addr, j: Addr)
    requires IsRun(ws, ss) && k <= m < |ws| && Stranded(ws[k], i, j) && Live(ws[m], i) && Live(ws[m], j)
    ensures Stranded(ws[m], i, j) && Waits(ws[m], i)
  {
    StrandedIffLate(ws, ss, k, i, j);
    StrandedIffLate(ws, ss, m, i, j);
    var loc := RunInv(ws, ss, m);
    StrandedByPlace(ws[m], loc, i, j);
  }

  /* ---- Settled states ---- */

  /** A nonempty set of peers with requests has a foremost member. */
  lemma {:induction false} ForemostOf(w: World, s: set<Addr>) returns (p: Addr)
    requires s != {}
    requires forall q :: q in s ==> q in w.nodes && w.nodes[q].me == q && w.nodes[q].reqTs.Some?
    ensures p in s && forall q :: q in s && q != p ==> Before(Prio(w.nodes[p]), Prio(w.nodes[q]))
  {
    p := SomeMember(s);
    if s != {p} {
      var r := ForemostOf(w, s - {p});
      if Before(Prio(w.nodes[r]), Prio(w.nodes[p])) {
        p := r;
      }
    }
  }

  /** A waiting peer whose permission is with nobody's thread or message is deferred or lost somewhere. */
  lemma WaiterIsStuck(w: World, loc: Where, i: Addr) returns (j: Addr)
    requires Inv(w, loc) && Settled(w) && Waits(w, i)
    ensures Live(w, j) && j != i && IsStuck(loc(i, j))
  {
    assert NodeOk(w.nodes[i], i, w.nodes.Keys, w.next);
    j := SomeMember(w.nodes[i].pending);
    assert Live(w, j);
    assert NodeOk(w.nodes[j], j, w.nodes.Keys, w.next);
    assert Pair(w.nodes[i], w.nodes[j], w.net, loc(i, j));
  }

  lemma StuckMeansStranded(w: World, loc: Where, p: Addr) returns (i: Addr, j: Addr)
    requires Inv(w, loc) && Settled(w) && Waits(w, p)
    ensures Stranded(w, i, j) && w.nodes[p].reqTs.Some? && !Before(Prio(w.nodes[p]), Prio(w.nodes[i]))
  {
    forall q | Live(w, q)
      ensures NodeOk(w.nodes[q], q, w.nodes.Keys, w.next)
    {
    }
    var waiting := set q | q in w.nodes && Live(w, q) && w.nodes[q].phase == Requesting;
    assert p in waiting;
    i := ForemostOf(w, waiting);
    j := WaiterIsStuck(w, loc, i);
    assert w.nodes[j].reqTs.Some? ==> j in waiting;
    StrandedByPlace(w, loc, i, j);
  }

  /** In a settled state somebody waits exactly when one of two live peers recorded a deferral of the
      other too late, at whatever step of the run. */
  lemma StuckIffLate(ws: seq<World>, ss: seq<Step>, k: nat)
    requires IsRun(ws, ss) && k < |ws| && Settled(ws[k])
    ensures (exists p :: Waits(ws[k], p)) <==>
            (exists i, j :: Live(ws[k], i) && Live(ws[k], j) && i != j && LateBefore(ws, ss, k, i, j))
  {
    if p :| Waits(ws[k], p) {
      var loc := RunInv(ws, ss, k);
      var i, j := StuckMeansStranded(ws[k], loc, p);
      StrandedIffLate(ws, ss, k, i, j);
    }
    if i, j :| Live(ws[k], i) && Live(ws[k], j) && i != j && LateBefore(ws, ss, k, i, j) {
      StrandedIffLate(ws, ss, k, i, j);
      StrandedForGood(ws, ss, k, k, i, j);
    }
  }
}
