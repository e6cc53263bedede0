/** Whom a flooded message reaches, how often, and over how many hops. */
module FloodReach {
  import opened Types
  import opened Flooding

  type Hops = Addr -> nat

  /** The origin, and every peer that has relayed the message. */
  predicate Inside(f: Flood, p: Addr) {
    p == f.origin || p in f.seen
  }

  function InsideSet(f: Flood): set<Addr> {
    f.seen + {f.origin}
  }

  predicate Pending(net: seq<Copy>, q: Addr) {
    exists k :: 0 <= k < |net| && net[k].to == q
  }

  /** A copy carries what is left of the budget after its writer's distance and one hop more. */
  ghost predicate CopiesOk(f: Flood, budget: int, g: map<Addr, set<Addr>>, hops: Hops) {
    forall k :: 0 <= k < |f.net| ==>
      var c := f.net[k]; Inside(f, c.from) && c.ttl == budget - 1 - hops(c.from) && c.to in g && c.to != f.origin
  }

  /** A peer inside has passed the message on along each edge, or had no budget left to. */
  ghost predicate EdgesOk(f: Flood, budget: int, g: map<Addr, set<Addr>>, hops: Hops) {
    forall p, q :: Inside(f, p) && p in g && q in g[p] ==> Inside(f, q) || Pending(f.net, q) || hops(p) >= budget
  }

  /** Holds when no id is forgotten. `hops(p)` is how far p's first copy had travelled; g is the graph
      at the time of sending. A peer at distance d got in after d others, so a spent budget means that
      nobody is left outside. */
  ghost predicate ReachInv(f: Flood, budget: int, g: map<Addr, set<Addr>>, hops: Hops) {
    && GraphOk(f.neighbors) && f.origin in f.neighbors && f.neighbors.Keys == g.Keys
    && f.seen <= g.Keys - {f.origin}
    && (forall p :: p in g ==> g[p] <= f.neighbors[p])
    && hops(f.origin) == 0
    && (forall p :: Inside(f, p) ==> hops(p) < |InsideSet(f)|)
    && CopiesOk(f, budget, g, hops)
    && EdgesOk(f, budget, g, hops)
    && (forall p :: f.handled[p] == if p in f.seen then 1 else 0)
  }

  lemma OriginationStarts(f: Flood, budget: int) returns (hops: Hops)
    requires Originated(f, budget)
    ensures ReachInv(f, budget, f.neighbors, hops)
  {
    hops := p => 0;
    var order :| Lists(order, f.neighbors[f.origin]) && f.net == Forward(f.origin, budget, order);
    assert InsideSet(f) == {f.origin};
    forall p, q | Inside(f, p) && q in f.neighbors[p]
      ensures Inside(f, q) || Pending(f.net, q) || hops(p) >= budget
    {
      if budget > 0 {
        ForwardCovers(p, budget, order, [], q);
        assert [] + f.net == f.net;
      }
    }
  }

  lemma ForwardCovers(p: Addr, ttl: int, order: seq<Addr>, rest: seq<Copy>, q: Addr)
    requires ttl > 0 && q in order
    ensures Pending(rest + Forward(p, ttl, order), q)
  {
    var i :| 0 <= i < |order| && order[i] == q;
    assert (rest + Forward(p, ttl, order))[|rest| + i].to == q;
  }

  lemma RestKeepsPending(net: seq<Copy>, k: nat, more: seq<Copy>, q: Addr)
    requires k < |net| && Pending(net, q) && q != net[k].to
    ensures Pending(net[..k] + net[k + 1..] + more, q)
  {
    var i :| 0 <= i < |net| && net[i].to == q;
    var rest := net[..k] + net[k + 1..] + more;
    if i < k {
      assert rest[i] == net[i];
    } else {
      assert rest[i - 1] == net[i];
    }
  }

  lemma DropKeepsInv(f: Flood, s: FloodStep, budget: int, g: map<Addr, set<Addr>>, hops: Hops)
    requires ReachInv(f, budget, g, hops) && FloodEnabled(f, s) && s.Handle? && f.net[s.k].to in f.seen
    ensures ReachInv(FloodNext(f, s), budget, g, hops)
  {
    var v := FloodNext(f, s);
    StepKeepsGraph(f, s);
    assert InsideSet(v) == InsideSet(f);
    forall p, q | Inside(v, p) && q in g[p]
      ensures Inside(v, q) || Pending(v.net, q) || hops(p) >= budget
    {
      if Pending(f.net, q) && !Inside(f, q) {
        RestKeepsPending(f.net, s.k, [], q);
        assert v.net == f.net[..s.k] + f.net[s.k + 1..] + [];
      }
    }
  }

  ghost predicate Relays(f: Flood, s: FloodStep, hops: Hops, hops': Hops) {
    && FloodEnabled(f, s) && s.Handle? && f.net[s.k].to !in f.seen
    && (forall p :: hops'(p) == if p == f.net[s.k].to then hops(f.net[s.k].from) + 1 else hops(p))
  }

  lemma RelayKeepsCopies(f: Flood, s: FloodStep, budget: int, g: map<Addr, set<Addr>>, hops: Hops, hops': Hops)
    requires ReachInv(f, budget, g, hops) && Relays(f, s, hops, hops')
    ensures CopiesOk(FloodNext(f, s), budget, g, hops')
  {
    var v := FloodNext(f, s);
    var rest := f.net[..s.k] + f.net[s.k + 1..];
    var sent := Forward(f.net[s.k].to, f.net[s.k].ttl, s.order);
    forall k | 0 <= k < |v.net|
      ensures var c := v.net[k]; Inside(v, c.from) && c.ttl == budget - 1 - hops'(c.from) && c.to in g && c.to != v.origin
    {
      if k < |rest| {
        var was := if k < s.k then k else k + 1;
        assert v.net[k] == f.net[was];
        assert Inside(f, f.net[was].from) && f.net[was].from != f.net[s.k].to;
      } else {
        assert v.net[k] == sent[k - |rest|];
        assert s.order[k - |rest|] in s.order;
      }
    }
  }

  lemma RelayKeepsEdges(f: Flood, s: FloodStep, budget: int, g: map<Addr, set<Addr>>, hops: Hops, hops': Hops)
    requires ReachInv(f, budget, g, hops) && Relays(f, s, hops, hops')
    ensures EdgesOk(FloodNext(f, s), budget, g, hops')
  {
    var v := FloodNext(f, s);
    var c := f.net[s.k];
    forall p, q | Inside(v, p) && p in g && q in g[p]
      ensures Inside(v, q) || Pending(v.net, q) || hops'(p) >= budget
    {
      if !Inside(v, q) {
        if p == c.to {
          if hops'(p) < budget {
            ForwardCovers(c.to, c.ttl, s.order, f.net[..s.k] + f.net[s.k + 1..], q);
          }
        } else if Pending(f.net, q) {
          RestKeepsPending(f.net, s.k, Forward(c.to, c.ttl, s.order), q);
        }
      }
    }
  }

  /** The newcomer is at most as far out as there were peers inside before it. */
  lemma RelayKeepsCounts(f: Flood, s: FloodStep, budget: int, g: map<Addr, set<Addr>>, hops: Hops, hops': Hops)
    requires ReachInv(f, budget, g, hops) && Relays(f, s, hops, hops')
    ensures var v := FloodNext(f, s);
            && v.seen <= g.Keys - {v.origin}
            && (forall p :: Inside(v, p) ==> hops'(p) < |InsideSet(v)|)
            && (forall p :: v.handled[p] == if p in v.seen then 1 else 0)
  {
    var v := FloodNext(f, s);
    var c := f.net[s.k];
    assert InsideSet(v) == InsideSet(f) + {c.to};
    forall p | Inside(v, p)
      ensures hops'(p) < |InsideSet(v)|
    {
      assert p != c.to ==> Inside(f, p);
    }
  }

  lemma RelayKeepsInv(f: Flood, s: FloodStep, budget: int, g: map<Addr, set<Addr>>, hops: Hops) returns (hops': Hops)
    requires ReachInv(f, budget, g, hops) && FloodEnabled(f, s) && s.Handle? && f.net[s.k].to !in f.seen
    ensures ReachInv(FloodNext(f, s), budget, g, hops')
  {
    var c := f.net[s.k];
    StepKeepsGraph(f, s);
    hops' := p => if p == c.to then hops(c.from) + 1 else hops(p);
    RelayKeepsCopies(f, s, budget, g, hops, hops');
    RelayKeepsEdges(f, s, budget, g, hops, hops');
    RelayKeepsCounts(f, s, budget, g, hops, hops');
  }

  lemma StepKeepsReach(f: Flood, s: FloodStep, budget: int, g: map<Addr, set<Addr>>, hops: Hops) returns (hops': Hops)
    requires ReachInv(f, budget, g, hops) && FloodEnabled(f, s) && !s.Forget?
    ensures ReachInv(FloodNext(f, s), budget, g, hops')
  {
    hops' := hops;
    if s.Learn? {
      StepKeepsGraph(f, s);
      assert InsideSet(FloodNext(f, s)) == InsideSet(f);
    } else if f.net[s.k].to in f.seen {
      DropKeepsInv(f, s, budget, g, hops);
    } else {
      hops' := RelayKeepsInv(f, s, budget, g, hops);
    }
  }

  lemma RunReach(fs: seq<Flood>, ss: seq<FloodStep>, budget: int, k: nat) returns (hops: Hops)
    requires IsFloodRun(fs, ss) && Originated(fs[0], budget) && k < |fs|
    requires forall m :: 0 <= m < |ss| ==> !ss[m].Forget?
    ensures ReachInv(fs[k], budget, fs[0].neighbors, hops) && fs[k].origin == fs[0].origin
  {
    if k == 0 {
      hops := OriginationStarts(fs[0], budget);
    } else {
      hops := RunReach(fs, ss, budget, k - 1);
      hops := StepKeepsReach(fs[k - 1], ss[k - 1], budget, fs[0].neighbors, hops);
    }
  }

  /** A walk along edges of the graph. */
  predicate IsWalk(g: map<Addr, set<Addr>>, walk: seq<Addr>) {
    && walk != []
    && (forall i :: 0 <= i < |walk| ==> walk[i] in g)
    && (forall i :: 0 < i < |walk| ==> walk[i] in g[walk[i - 1]])
  }

  /** With nothing in flight and a budget of at least N - 1, being inside spreads along every edge. */
  lemma InsideSpreads(f: Flood, budget: int, g: map<Addr, set<Addr>>, hops: Hops, p: Addr, q: Addr)
    requires ReachInv(f, budget, g, hops) && GraphOk(g) && f.net == []
    requires budget >= |g.Keys| - 1 && Inside(f, p) && q in g[p]
    ensures Inside(f, q)
  {
    if !Inside(f, q) {
      assert hops(p) >= budget;
      assert InsideSet(f) <= g.Keys - {q};
      Cardinality(InsideSet(f), g.Keys - {q});
    }
  }

  lemma {:induction false} WalkIsInside(f: Flood, budget: int, g: map<Addr, set<Addr>>, hops: Hops, walk: seq<Addr>)
    requires ReachInv(f, budget, g, hops) && GraphOk(g) && f.net == [] && budget >= |g.Keys| - 1
    requires IsWalk(g, walk) && walk[0] == f.origin
    ensures Inside(f, walk[|walk| - 1])
  {
    if |walk| > 1 {
      var init := walk[..|walk| - 1];
      WalkIsInside(f, budget, g, hops, init);
      InsideSpreads(f, budget, g, hops, walk[|walk| - 2], walk[|walk| - 1]);
    }
  }

  /** With budget at least N - 1 and no id forgotten, once nothing is in flight every other peer that
      the origin could reach when it sent has handled the message exactly once; no peer ever handles
      it twice, and the origin never handles it. The order of deliveries does not matter. */
  lemma FloodReaches(fs: seq<Flood>, ss: seq<FloodStep>, budget: int, k: nat, walk: seq<Addr>)
    requires IsFloodRun(fs, ss) && Originated(fs[0], budget) && k < |fs|
    requires forall m :: 0 <= m < |ss| ==> !ss[m].Forget?
    requires budget >= |fs[0].neighbors.Keys| - 1
    requires IsWalk(fs[0].neighbors, walk) && walk[0] == fs[0].origin && walk[|walk| - 1] != fs[0].origin
    ensures forall p :: fs[k].handled[p] <= 1
    ensures fs[k].handled[fs[0].origin] == 0
    ensures fs[k].net == [] ==> fs[k].handled[walk[|walk| - 1]] == 1
  {
    var hops := RunReach(fs, ss, budget, k);
    if fs[k].net == [] {
      WalkIsInside(fs[k], budget, fs[0].neighbors, hops, walk);
    }
  }

  /* ---- Hop bound, with or without forgetting ---- */

  ghost predicate WalkTo(g: map<Addr, set<Addr>>, from: Addr, to: Addr, edges: int) {
    exists walk :: IsWalk(g, walk) && walk[0] == from && walk[|walk| - 1] == to && |walk| - 1 == edges
  }

  ghost predicate HopInv(f: Flood, budget: int) {
    && GraphOk(f.neighbors) && f.origin in f.neighbors
    && (forall k :: 0 <= k < |f.net| ==>
          f.net[k].to != f.origin && f.net[k].ttl >= 0 && WalkTo(f.neighbors, f.origin, f.net[k].to, budget - f.net[k].ttl))
    && (forall p :: p in f.handled ==> exists n :: 0 <= n <= budget && WalkTo(f.neighbors, f.origin, p, n))
  }

  lemma WalkExtends(g: map<Addr, set<Addr>>, from: Addr, p: Addr, q: Addr, edges: int)
    requires WalkTo(g, from, p, edges) && p in g && q in g[p] && q in g
    ensures WalkTo(g, from, q, edges + 1)
  {
    var walk :| IsWalk(g, walk) && walk[0] == from && walk[|walk| - 1] == p && |walk| - 1 == edges;
    assert IsWalk(g, walk + [q]);
    assert (walk + [q])[0] == from && (walk + [q])[|walk|] == q;
  }

  lemma WalkSurvives(g: map<Addr, set<Addr>>, g': map<Addr, set<Addr>>, from: Addr, to: Addr, edges: int)
    requires g.Keys == g'.Keys && (forall p :: p in g ==> g[p] <= g'[p]) && WalkTo(g, from, to, edges)
    ensures WalkTo(g', from, to, edges)
  {
    var walk :| IsWalk(g, walk) && walk[0] == from && walk[|walk| - 1] == to && |walk| - 1 == edges;
    forall i | 0 < i < |walk|
      ensures walk[i] in g'[walk[i - 1]]
    {
      var p := walk[i - 1];
      assert p in g && walk[i] in g[p];
      assert g[p] <= g'[p];
    }
    assert IsWalk(g', walk);
  }

  lemma OriginationIsHop(f: Flood, budget: int)
    requires Originated(f, budget)
    ensures HopInv(f, budget)
  {
    assert IsWalk(f.neighbors, [f.origin]);
    assert WalkTo(f.neighbors, f.origin, f.origin, 0);
    forall k | 0 <= k < |f.net|
      ensures WalkTo(f.neighbors, f.origin, f.net[k].to, budget - f.net[k].ttl)
    {
      WalkExtends(f.neighbors, f.origin, f.origin, f.net[k].to, 0);
    }
  }

  lemma CopyAfter(f: Flood, s: FloodStep, budget: int, c: Copy)
    requires HopInv(f, budget) && FloodEnabled(f, s) && c in FloodNext(f, s).net
    ensures c.to != f.origin && c.ttl >= 0 && WalkTo(FloodNext(f, s).neighbors, f.origin, c.to, budget - c.ttl)
  {
    var v := FloodNext(f, s);
    StepKeepsGraph(f, s);
    if i :| 0 <= i < |f.net| && f.net[i] == c {
      WalkSurvives(f.neighbors, v.neighbors, f.origin, c.to, budget - c.ttl);
    } else {
      var d := f.net[s.k];
      var i :| 0 <= i < |Forward(d.to, d.ttl, s.order)| && Forward(d.to, d.ttl, s.order)[i] == c;
      assert s.order[i] == c.to && s.order[i] in s.order;
      WalkExtends(f.neighbors, f.origin, d.to, c.to, budget - d.ttl);
      WalkSurvives(f.neighbors, v.neighbors, f.origin, c.to, budget - c.ttl);
    }
  }

  lemma HandledAfter(f: Flood, s: FloodStep, budget: int, p: Addr)
    requires HopInv(f, budget) && FloodEnabled(f, s) && p in FloodNext(f, s).handled
    ensures exists n :: 0 <= n <= budget && WalkTo(FloodNext(f, s).neighbors, f.origin, p, n)
  {
    var v := FloodNext(f, s);
    StepKeepsGraph(f, s);
    var n: int;
    if p in f.handled {
      n :| 0 <= n <= budget && WalkTo(f.neighbors, f.origin, p, n);
    } else {
      n := budget - f.net[s.k].ttl;
      var walk :| IsWalk(f.neighbors, walk) && walk[0] == f.origin && walk[|walk| - 1] == p && |walk| - 1 == n;
    }
    WalkSurvives(f.neighbors, v.neighbors, f.origin, p, n);
  }

  /** In every run, forgetful or not: a copy carrying ttl has come along a walk of exactly budget - ttl
      edges, no copy is addressed to the origin, and a peer that handled the message is at most
      `budget` edges from the origin. */
  lemma {:induction false} HopBound(fs: seq<Flood>, ss: seq<FloodStep>, budget: int, k: nat)
    requires IsFloodRun(fs, ss) && Originated(fs[0], budget) && k < |fs|
    ensures HopInv(fs[k], budget) && fs[k].origin == fs[0].origin
  {
    if k == 0 {
      OriginationIsHop(fs[0], budget);
    } else {
      HopBound(fs, ss, budget, k - 1);
      var f, s := fs[k - 1], ss[k - 1];
      StepKeepsGraph(f, s);
      forall i | 0 <= i < |fs[k].net|
        ensures fs[k].net[i].to != f.origin && fs[k].net[i].ttl >= 0
        ensures WalkTo(fs[k].neighbors, f.origin, fs[k].net[i].to, budget - fs[k].net[i].ttl)
      {
        CopyAfter(f, s, budget, fs[k].net[i]);
      }
      forall p | p in fs[k].handled
        ensures exists n :: 0 <= n <= budget && WalkTo(fs[k].neighbors, f.origin, p, n)
      {
        HandledAfter(f, s, budget, p);
      }
    }
  }

  /** Whoever has handled the message knows its origin, which may not have been a neighbor before. */
  lemma {:induction false} HandlersKnowOrigin(fs: seq<Flood>, ss: seq<FloodStep>, budget: int, k: nat, p: Addr)
    requires IsFloodRun(fs, ss) && Originated(fs[0], budget) && k < |fs| && p in fs[k].handled
    ensures p in fs[k].neighbors && fs[0].origin in fs[k].neighbors[p]
  {
    if k > 0 {
      HopBound(fs, ss, budget, k - 1);
      StepKeepsGraph(fs[k - 1], ss[k - 1]);
      if p in fs[k - 1].handled {
        HandlersKnowOrigin(fs, ss, budget, k - 1, p);
      }
    }
  }
}
