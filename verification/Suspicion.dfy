/** Failure detection that errs: runs in which peers give up on live ones, and what that can break. */
module Suspicion {
  import opened Types
  import opened CriticalSection
  import opened MutexSystem
  import opened MutexInvariant
  import opened MutexTheorems

  /** A step of the system, or a peer q that takes the live peer d for dead; a send whose failure makes it
      do so has lost its message. */
  datatype Move = Right(s: Step) | Wrong(q: Addr, d: Addr, lost: set<Envelope>)

  /** w, with q giving up on d. */
  function Suspect(w: World, q: Addr, d: Addr, lost: set<Envelope>): World
    requires q in w.nodes
  {
    w.(nodes := w.nodes[q := DropPeer(w.nodes[q], d)], net := w.net - lost)
  }

  predicate CanSuspect(w: World, q: Addr, d: Addr, lost: set<Envelope>) {
    && Live(w, q) && Live(w, d) && q != d && !w.nodes[q].releasing
    && lost <= w.net && forall e :: e in lost ==> e.from == q && e.to == d
  }

  /** Where the permissions are then: a lost reply is lost. */
  function MovedBySuspicion(lost: set<Envelope>, i: Addr, j: Addr, l: Loc): Loc {
    if l.Answered? && Env(l.id, j, i, CsReply(l.lam)) in lost then Lost else l
  }

  predicate MoveEnabled(w: World, m: Move) {
    match m
    case Right(s) => Enabled(w, s)
    case Wrong(q, d, lost) => CanSuspect(w, q, d, lost)
  }

  function MoveNext(w: World, m: Move): World
    requires MoveEnabled(w, m)
  {
    match m
    case Right(s) => Next(w, s)
    case Wrong(q, d, lost) => Suspect(w, q, d, lost)
  }

  predicate MoveAt(ws: seq<World>, ms: seq<Move>, k: nat) {
    k < |ms| && k + 1 < |ws| && MoveEnabled(ws[k], ms[k]) && ws[k + 1] == MoveNext(ws[k], ms[k])
  }

  predicate IsFallibleRun(ws: seq<World>, ms: seq<Move>) {
    |ws| == |ms| + 1 && Init(ws[0]) && forall k :: 0 <= k < |ms| ==> MoveAt(ws, ms, k)
  }

  function Mistakes(ms: seq<Move>): set<(Addr, Addr)> {
    set m | m in ms && m.Wrong? :: (m.q, m.d)
  }

  /* ---- Any number of mistakes ---- */

  lemma SuspectKeepsBase(w: World, q: Addr, d: Addr, lost: set<Envelope>)
    requires Base(w) && CanSuspect(w, q, d, lost)
    ensures Base(Suspect(w, q, d, lost)) && Suspect(w, q, d, lost).nodes.Keys == w.nodes.Keys
  {
    var v := Suspect(w, q, d, lost);
    forall p | p in v.nodes
      ensures NodeOk(v.nodes[p], p, v.nodes.Keys, v.next)
    {
      assert NodeOk(w.nodes[p], p, w.nodes.Keys, w.next);
    }
  }

  /** The lost copies matter to one pair only. */
  lemma LossKeepsPair(w: World, q: Addr, d: Addr, lost: set<Envelope>, i: Addr, j: Addr, l: Loc)
    requires Base(w) && CanSuspect(w, q, d, lost) && Live(w, i) && Live(w, j) && i != j && (i, j) != (q, d)
    requires PairOk(w, i, j, l)
    ensures Pair(w.nodes[i], w.nodes[j], w.net - lost, MovedBySuspicion(lost, i, j, l))
  {
    assert NodeOk(w.nodes[i], i, w.nodes.Keys, w.next);
    assert NodeOk(w.nodes[j], j, w.nodes.Keys, w.next);
  }

  lemma SuspectKeepsPair(w: World, q: Addr, d: Addr, lost: set<Envelope>, i: Addr, j: Addr, l: Loc)
    requires Base(w) && CanSuspect(w, q, d, lost) && Live(w, i) && Live(w, j) && i != j && (i, j) != (q, d)
    requires PairOk(w, i, j, l)
    ensures PairOk(Suspect(w, q, d, lost), i, j, MovedBySuspicion(lost, i, j, l))
  {
    LossKeepsPair(w, q, d, lost, i, j, l);
    assert NodeOk(w.nodes[i], i, w.nodes.Keys, w.next);
    assert NodeOk(w.nodes[j], j, w.nodes.Keys, w.next);
    var v, l' := Suspect(w, q, d, lost), MovedBySuspicion(lost, i, j, l);
    if q == i {
      RequesterKeepsPair(w.nodes[i], v.nodes[i], w.nodes[j], v.net, v.net, l');
    } else if q == j {
      VoterKeepsPair(w.nodes[i], w.nodes[j], v.nodes[j], v.net, v.net, l');
    }
  }

  /** A mistake spoils the pair it is about and no other. */
  lemma SuspectKeepsInvBut(w: World, loc: Where, gone: set<(Addr, Addr)>, q: Addr, d: Addr, lost: set<Envelope>)
    returns (loc': Where)
    requires InvBut(w, loc, gone) && CanSuspect(w, q, d, lost)
    ensures InvBut(Suspect(w, q, d, lost), loc', gone + {(q, d)})
  {
    loc' := (i, j) => MovedBySuspicion(lost, i, j, loc(i, j));
    SuspectKeepsBase(w, q, d, lost);
    var v := Suspect(w, q, d, lost);
    forall i, j | Live(v, i) && Live(v, j) && i != j && (i, j) !in gone + {(q, d)}
      ensures PairOk(v, i, j, loc'(i, j))
    {
      SuspectKeepsPair(w, q, d, lost, i, j, loc(i, j));
    }
  }

  lemma FallibleRunInv(ws: seq<World>, ms: seq<Move>, k: nat) returns (loc: Where)
    requires IsFallibleRun(ws, ms) && k < |ws|
    ensures InvBut(ws[k], loc, Mistakes(ms[..k]))
  {
    if k == 0 {
      loc := InitInv(ws[0]);
    } else {
      loc := FallibleRunInv(ws, ms, k - 1);
      assert MoveAt(ws, ms, k - 1);
      var m := ms[k - 1];
      assert ms[..k] == ms[..k - 1] + [m];
      match m
      case Right(s) =>
        loc := StepKeepsInvBut(ws[k - 1], s, loc, Mistakes(ms[..k - 1]));
        assert Mistakes(ms[..k]) == Mistakes(ms[..k - 1]);
      case Wrong(q, d, lost) =>
        loc := SuspectKeepsInvBut(ws[k - 1], loc, Mistakes(ms[..k - 1]), q, d, lost);
        assert Mistakes(ms[..k]) == Mistakes(ms[..k - 1]) + {(q, d)};
    }
  }

  lemma HoldersDisagree(w: World, loc: Where, gone: set<(Addr, Addr)>, i: Addr, j: Addr)
    requires InvBut(w, loc, gone) && Holds(w, i) && Holds(w, j) && i != j
    ensures (i, j) in gone || (j, i) in gone
  {
    assert NodeOk(w.nodes[i], i, w.nodes.Keys, w.next);
    assert NodeOk(w.nodes[j], j, w.nodes.Keys, w.next);
    assert (i, j) !in gone ==> PairOk(w, i, j, loc(i, j));
    assert (j, i) !in gone ==> PairOk(w, j, i, loc(j, i));
  }

  /** Whatever mistakes were made about whom: if two live peers are in at once, one of these two has
      given up on the other. */
  lemma TwoHoldersNeedMistake(ws: seq<World>, ms: seq<Move>, k: nat, i: Addr, j: Addr)
    requires IsFallibleRun(ws, ms) && k < |ws| && Holds(ws[k], i) && Holds(ws[k], j) && i != j
    ensures (i, j) in Mistakes(ms[..k]) || (j, i) in Mistakes(ms[..k])
  {
    var loc := FallibleRunInv(ws, ms, k);
    HoldersDisagree(ws[k], loc, Mistakes(ms[..k]), i, j);
  }
}
