/** Flooding one message with a hop budget and duplicate suppression, for any delivery order. */
module Flooding {
  import opened Types

  /** One copy under way; `from` is the peer that wrote it, which its receiver does not look at. */
  datatype Copy = Copy(from: Addr, to: Addr, ttl: int)

  /** `seen` are the peers whose log holds the message's id; `handled` counts what got past that log. */
  datatype Flood = Flood(
    origin: Addr,
    neighbors: map<Addr, set<Addr>>,
    seen: set<Addr>,
    handled: multiset<Addr>,
    net: seq<Copy>)

  /** Handle(k, order): copy k arrives; if it is relayed, `order` is the order of the send loop.
      Learn: another message makes p know q. Forget: p's log, being full, drops the id. */
  datatype FloodStep =
    | Handle(k: nat, order: seq<Addr>)
    | Learn(p: Addr, q: Addr)
    | Forget(p: Addr)

  /** The copies written by one send loop; a spent budget sends nothing. */
  function Forward(p: Addr, ttl: int, order: seq<Addr>): (r: seq<Copy>)
    ensures |r| == if ttl <= 0 then 0 else |order|
    ensures forall i :: 0 <= i < |r| ==> r[i] == Copy(p, order[i], ttl - 1)
  {
    if ttl <= 0 then [] else seq(|order|, i requires 0 <= i < |order| => Copy(p, order[i], ttl - 1))
  }

  predicate GraphOk(g: map<Addr, set<Addr>>) {
    forall p :: p in g ==> g[p] <= g.Keys && p !in g[p]
  }

  /** The copies are those of one send loop over the targets, in some order. */
  ghost predicate Broadcasts(copies: seq<Copy>, p: Addr, ttl: int, targets: set<Addr>) {
    exists order :: Lists(order, targets) && copies == Forward(p, ttl, order)
  }

  /** Right after the origin has sent the message with budget ttl. */
  ghost predicate Originated(f: Flood, ttl: int) {
    && f.origin in f.neighbors && GraphOk(f.neighbors)
    && f.seen == {} && f.handled == multiset{}
    && Broadcasts(f.net, f.origin, ttl, f.neighbors[f.origin])
  }

  ghost predicate FloodEnabled(f: Flood, s: FloodStep) {
    match s
    case Handle(k, order) =>
      k < |f.net| && f.net[k].to in f.neighbors && Lists(order, f.neighbors[f.net[k].to] - {f.origin})
    case Learn(p, q) => p in f.neighbors && q in f.neighbors && p != q
    case Forget(p) => p in f.neighbors
  }

  /** The copy's addressee first adds the origin to its neighbors; the relay then leaves it out. */
  function Met(f: Flood, p: Addr): map<Addr, set<Addr>>
    requires p in f.neighbors
  {
    if p == f.origin then f.neighbors else f.neighbors[p := f.neighbors[p] + {f.origin}]
  }

  ghost function FloodNext(f: Flood, s: FloodStep): Flood
    requires FloodEnabled(f, s)
  {
    match s
    case Handle(k, order) =>
      var c := f.net[k];
      var rest := f.net[..k] + f.net[k + 1..];
      if c.to in f.seen then f.(neighbors := Met(f, c.to), net := rest)
      else f.(neighbors := Met(f, c.to), seen := f.seen + {c.to}, handled := f.handled + multiset{c.to},
              net := rest + Forward(c.to, c.ttl, order))
    case Learn(p, q) => f.(neighbors := f.neighbors[p := f.neighbors[p] + {q}])
    case Forget(p) => f.(seen := f.seen - {p})
  }

  ghost predicate IsFloodRun(fs: seq<Flood>, ss: seq<FloodStep>) {
    && |fs| == |ss| + 1
    && forall k :: 0 <= k < |ss| ==> FloodEnabled(fs[k], ss[k]) && fs[k + 1] == FloodNext(fs[k], ss[k])
  }

  /* ---- Termination from the budget alone ---- */

  /** Copies that one copy with this budget can ever cause, itself included, among n peers. */
  function Weight(n: nat, ttl: int): nat
    decreases if ttl < 0 then 0 else ttl
  {
    if ttl <= 0 then 1 else 1 + n * Weight(n, ttl - 1)
  }

  function Load(n: nat, net: seq<Copy>): nat {
    if net == [] then 0 else Load(n, net[..|net| - 1]) + Weight(n, net[|net| - 1].ttl)
  }

  lemma {:induction false} LoadConcat(n: nat, a: seq<Copy>, b: seq<Copy>)
    ensures Load(n, a + b) == Load(n, a) + Load(n, b)
  {
    if b == [] {
      assert a + b == a;
    } else {
      assert (a + b)[..|a + b| - 1] == a + b[..|b| - 1];
      LoadConcat(n, a, b[..|b| - 1]);
    }
  }

  /** Copies of one budget weigh at most as much as n of them, if they are no more than n. */
  lemma {:induction false} LoadOfEqualCopies(n: nat, net: seq<Copy>, ttl: int, w: nat, m: nat)
    requires (forall i :: 0 <= i < |net| ==> net[i].ttl == ttl) && w == Weight(n, ttl) && |net| <= m
    ensures Load(n, net) <= m * w
  {
    if net != [] {
      LoadOfEqualCopies(n, net[..|net| - 1], ttl, w, m - 1);
      assert (m - 1) * w + w == m * w;
    }
  }

  lemma {:induction false} ListLength(order: seq<Addr>, s: set<Addr>)
    requires Lists(order, s)
    ensures |order| == |s|
  {
    if order == [] {
      assert forall a :: a !in s;
      assert s == {};
    } else {
      var last := order[|order| - 1];
      ListLength(order[..|order| - 1], s - {last});
    }
  }

  lemma ForwardLoad(n: nat, p: Addr, ttl: int, order: seq<Addr>)
    requires |order| <= n
    ensures Load(n, Forward(p, ttl, order)) < Weight(n, ttl)
  {
    if ttl > 0 {
      LoadOfEqualCopies(n, Forward(p, ttl, order), ttl - 1, Weight(n, ttl - 1), n);
    }
  }

  lemma RemoveLoad(n: nat, net: seq<Copy>, k: nat)
    requires k < |net|
    ensures Load(n, net) == Load(n, net[..k] + net[k + 1..]) + Weight(n, net[k].ttl)
  {
    assert net == net[..k] + ([net[k]] + net[k + 1..]);
    LoadConcat(n, net[..k], [net[k]] + net[k + 1..]);
    LoadConcat(n, [net[k]], net[k + 1..]);
    LoadConcat(n, net[..k], net[k + 1..]);
    assert Load(n, [net[k]]) == Weight(n, net[k].ttl);
  }

  lemma StepKeepsGraph(f: Flood, s: FloodStep)
    requires GraphOk(f.neighbors) && f.origin in f.neighbors && FloodEnabled(f, s)
    ensures var g := FloodNext(f, s);
            GraphOk(g.neighbors) && g.origin == f.origin && g.neighbors.Keys == f.neighbors.Keys
            && forall p :: p in f.neighbors ==> f.neighbors[p] <= g.neighbors[p]
  {
  }

  /** Every handling shrinks the load, even when the id has been forgotten. */
  lemma HandlingShrinksLoad(f: Flood, s: FloodStep)
    requires GraphOk(f.neighbors) && f.origin in f.neighbors && FloodEnabled(f, s)
    ensures var n := |f.neighbors.Keys|;
            if s.Handle? then Load(n, FloodNext(f, s).net) < Load(n, f.net) else Load(n, FloodNext(f, s).net) == Load(n, f.net)
  {
    if s.Handle? {
      var n := |f.neighbors.Keys|;
      var c := f.net[s.k];
      var rest := f.net[..s.k] + f.net[s.k + 1..];
      RemoveLoad(n, f.net, s.k);
      var targets := f.neighbors[c.to] - {f.origin};
      ListLength(s.order, targets);
      Cardinality(targets, f.neighbors.Keys);
      ForwardLoad(n, c.to, c.ttl, s.order);
      LoadConcat(n, rest, Forward(c.to, c.ttl, s.order));
    }
  }

  lemma {:induction false} Cardinality(a: set<Addr>, b: set<Addr>)
    requires a <= b
    ensures |a| <= |b|
  {
    assert |b| == |a| + |b - a| by {
      assert b == a + (b - a);
    }
  }

  function Handlings(ss: seq<FloodStep>): nat {
    if ss == [] then 0 else Handlings(ss[..|ss| - 1]) + (if ss[|ss| - 1].Handle? then 1 else 0)
  }

  /** No run handles more copies than the load it starts with, whatever is learnt or forgotten. */
  lemma {:induction false} HandlingsAreBounded(fs: seq<Flood>, ss: seq<FloodStep>)
    requires IsFloodRun(fs, ss) && GraphOk(fs[0].neighbors) && fs[0].origin in fs[0].neighbors
    ensures var n := |fs[0].neighbors.Keys|; var last := fs[|ss|];
            && Handlings(ss) + Load(n, last.net) <= Load(n, fs[0].net)
            && GraphOk(last.neighbors) && last.origin == fs[0].origin && last.neighbors.Keys == fs[0].neighbors.Keys
  {
    if ss != [] {
      var m := |ss| - 1;
      HandlingsAreBounded(fs[..|fs| - 1], ss[..m]);
      StepKeepsGraph(fs[m], ss[m]);
      HandlingShrinksLoad(fs[m], ss[m]);
    }
  }
}
