/** What the invariant gives: exclusion, conservation of permissions, total order of entries. */
module MutexTheorems {
  import opened Types
  import opened CriticalSection
  import opened MutexSystem
  import opened MutexInvariant

  predicate Holds(w: World, p: Addr) {
    Live(w, p) && w.nodes[p].phase == InCs
  }

  /** p comes before every other live peer that wants it. */
  ghost predicate Foremost(w: World, p: Addr) {
    && Live(w, p) && w.nodes[p].reqTs.Some?
    && forall q :: Live(w, q) && q != p && Engaged(w.nodes[q]) ==>
         w.nodes[q].reqTs.Some? && Before(Prio(w.nodes[p]), Prio(w.nodes[q]))
  }

  lemma HolderIsForemost(w: World, loc: Where, p: Addr)
    requires Inv(w, loc) && Holds(w, p)
    ensures Foremost(w, p)
    ensures forall q :: Live(w, q) && q != p ==> w.nodes[p].reqTs.value < w.nodes[q].clock && loc(p, q) == Granted
  {
    forall q | Live(w, q) && q != p
      ensures w.nodes[p].reqTs.Some? && w.nodes[p].reqTs.value < w.nodes[q].clock && loc(p, q) == Granted
      ensures Engaged(w.nodes[q]) ==> w.nodes[q].reqTs.Some? && Before(Prio(w.nodes[p]), Prio(w.nodes[q]))
    {
      assert Pair(w.nodes[p], w.nodes[q], w.net, loc(p, q));
    }
  }

  /** In every state of every run a live peer in the critical section is foremost, so it is alone. */
  lemma MutualExclusion(ws: seq<World>, ss: seq<Step>, k: nat)
    requires IsRun(ws, ss) && k < |ws|
    ensures forall p :: Holds(ws[k], p) ==> Foremost(ws[k], p)
    ensures forall p, q :: Holds(ws[k], p) && Holds(ws[k], q) ==> p == q
  {
    var loc := RunInv(ws, ss, k);
    forall p | Holds(ws[k], p)
      ensures Foremost(ws[k], p)
    {
      HolderIsForemost(ws[k], loc, p);
    }
  }

  /** Only requesters await votes, so the probe does what a failed send does. */
  lemma ProbeIsFailedSend(ws: seq<World>, ss: seq<Step>, k: nat, p: Addr, d: Addr)
    requires IsRun(ws, ss) && k < |ws| && p in ws[k].nodes
    ensures DropProbed(ws[k].nodes[p], d) == DropPeer(ws[k].nodes[p], d)
  {
    var loc := RunInv(ws, ss, k);
    assert NodeOk(ws[k].nodes[p], p, ws[k].nodes.Keys, ws[k].next);
  }

  /* ---- Conservation of permissions ---- */

  function One(b: bool): nat {
    if b then 1 else 0
  }

  function RequestsInFlight(w: World, i: Addr, j: Addr): set<Envelope> {
    set e | e in w.net && e.from == i && e.to == j && e.body.CsRequest?
  }

  function RepliesInFlight(w: World, i: Addr, j: Addr): set<Envelope> {
    set e | e in w.net && e.from == j && e.to == i && e.body.CsReply?
  }

  function Comparisons(w: World, i: Addr, j: Addr): set<Task>
    requires j in w.nodes
  {
    set t | t in w.nodes[j].tasks && t.from == i
  }

  /** Everything in the system that stands for j's permission to i. */
  function Permissions(w: World, i: Addr, j: Addr): nat
    requires i in w.nodes && j in w.nodes
  {
    |RequestsInFlight(w, i, j)| + |Comparisons(w, i, j)| + One(i in w.nodes[j].deferred + w.nodes[j].owed)
    + |RepliesInFlight(w, i, j)| + One(Engaged(w.nodes[i]) && j !in w.nodes[i].pending)
  }

  /** Step m acts at j on a comparison that i's request lost, after j's release has copied the deferred
      peers and before it clears them. */
  predicate DefersInRelease(ws: seq<World>, ss: seq<Step>, m: nat, i: Addr, j: Addr)
    requires m < |ss| && m < |ws| && j in ws[m].nodes
  {
    var s, n := ss[m], ws[m].nodes[j];
    s.Act? && s.p == j && s.t.Loaded? && s.t.from == i && !Wins(s.t, n.me) && n.releasing
  }

  /** Such a deferral was cleared away before step k. */
  ghost predicate LostBefore(ws: seq<World>, ss: seq<Step>, k: nat, i: Addr, j: Addr)
    requires k <= |ss| <= |ws|
  {
    exists m, n :: 0 <= m < n < k && j in ws[m].nodes && DefersInRelease(ws, ss, m, i, j) && ss[n] == Clear(j)
  }

  ghost predicate DoomedBefore(ws: seq<World>, ss: seq<Step>, k: nat, i: Addr, j: Addr)
    requires k <= |ss| <= |ws|
  {
    exists m :: 0 <= m < k && j in ws[m].nodes && DefersInRelease(ws, ss, m, i, j) && Clear(j) !in ss[m + 1..k]
  }

  lemma LossStep(ws: seq<World>, ss: seq<Step>, k: nat, loc: Where, i: Addr, j: Addr)
    requires StepAt(ws, ss, k) && Inv(ws[k], loc) && Live(ws[k], i) && Live(ws[k], j) && i != j
    ensures var l, l' := loc(i, j), Moved(ws[k], ss[k], i, j, loc(i, j));
            && (l'.Doomed? <==> DefersInRelease(ws, ss, k, i, j) || (l.Doomed? && ss[k] != Clear(j)))
            && (l'.Lost? <==> l.Lost? || (l.Doomed? && ss[k] == Clear(j)))
  {
    var w := ws[k];
    assert Pair(w.nodes[i], w.nodes[j], w.net, loc(i, j));
    assert NodeOk(w.nodes[i], i, w.nodes.Keys, w.next);
    assert NodeOk(w.nodes[j], j, w.nodes.Keys, w.next);
  }

  lemma {:induction false} TrackLoss(ws: seq<World>, ss: seq<Step>, k: nat, i: Addr, j: Addr) returns (loc: Where)
    requires IsRun(ws, ss) && k < |ws| && Live(ws[k], i) && Live(ws[k], j) && i != j
    ensures Inv(ws[k], loc)
    ensures loc(i, j).Lost? <==> LostBefore(ws, ss, k, i, j)
    ensures loc(i, j).Doomed? <==> DoomedBefore(ws, ss, k, i, j)
  {
    if k == 0 {
      loc := InitInv(ws[0]);
      assert ws[0].nodes[i].phase == Idle;
      assert Pair(ws[0].nodes[i], ws[0].nodes[j], ws[0].net, loc(i, j));
    } else {
      assert StepAt(ws, ss, k - 1);
      var before := TrackLoss(ws, ss, k - 1, i, j);
      loc := StepKeepsInv(ws[k - 1], ss[k - 1], before);
      LossStep(ws, ss, k - 1, before, i, j);
      LossGrows(ws, ss, k - 1, i, j);
    }
  }

  lemma LossGrows(ws: seq<World>, ss: seq<Step>, k: nat, i: Addr, j: Addr)
    requires k < |ss| <= |ws| && j in ws[k].nodes
    ensures DoomedBefore(ws, ss, k + 1, i, j) <==>
              DefersInRelease(ws, ss, k, i, j) || (DoomedBefore(ws, ss, k, i, j) && ss[k] != Clear(j))
    ensures LostBefore(ws, ss, k + 1, i, j) <==>
              LostBefore(ws, ss, k, i, j) || (DoomedBefore(ws, ss, k, i, j) && ss[k] == Clear(j))
  {
    forall m | 0 <= m < k && j in ws[m].nodes && DefersInRelease(ws, ss, m, i, j)
      ensures ss[m + 1..k + 1] == ss[m + 1..k] + [ss[k]]
    {
    }
    assert ss[k + 1..k + 1] == [];
    forall m | 0 <= m < k && j in ws[m].nodes && DefersInRelease(ws, ss, m, i, j) && Clear(j) in ss[m + 1..k]
      ensures LostBefore(ws, ss, k, i, j)
    {
      var c :| 0 <= c < |ss[m + 1..k]| && ss[m + 1..k][c] == Clear(j);
      assert ss[m + 1 + c] == Clear(j);
    }
  }

  /** While i is idle there is none, so no reply is left over for a later request. While i wants or
      holds the critical section there is exactly one, unless the two halves of a release of j had the
      deferral of i in between; then there is none for good. */
  lemma PermissionConserved(ws: seq<World>, ss: seq<Step>, k: nat, i: Addr, j: Addr)
    requires IsRun(ws, ss) && k < |ws|
    requires Live(ws[k], i) && Live(ws[k], j) && i != j
    ensures Permissions(ws[k], i, j) == One(Engaged(ws[k].nodes[i]) && !LostBefore(ws, ss, k, i, j))
  {
    var loc := TrackLoss(ws, ss, k, i, j);
    OnePermission(ws[k], loc, i, j);
  }

  lemma OnePermission(w: World, loc: Where, i: Addr, j: Addr)
    requires Inv(w, loc) && Live(w, i) && Live(w, j) && i != j
    ensures Permissions(w, i, j) == One(!loc(i, j).Free? && !loc(i, j).Lost?)
    ensures Engaged(w.nodes[i]) <==> !loc(i, j).Free?
  {
    var l := loc(i, j);
    assert Pair(w.nodes[i], w.nodes[j], w.net, l);
    assert NodeOk(w.nodes[i], i, w.nodes.Keys, w.next);
    assert NodeOk(w.nodes[j], j, w.nodes.Keys, w.next);
    OneRequest(w, i, j, l);
    OneReply(w, i, j, l);
    OneComparison(w, i, j, l);
  }

  lemma OneRequest(w: World, i: Addr, j: Addr, l: Loc)
    requires i in w.nodes && j in w.nodes && w.nodes[i].me == i && w.nodes[j].me == j
    requires Placed(w.nodes[i], w.nodes[j], w.net, l) && (w.nodes[i].phase == Idle <==> w.nodes[i].reqTs == None)
    ensures |RequestsInFlight(w, i, j)| == One(l.Asked?)
  {
    var r := RequestsInFlight(w, i, j);
    if l.Asked? {
      var e := Env(l.id, i, j, CsRequest(w.nodes[i].reqTs.value));
      assert r == {e};
    } else {
      assert r == {};
    }
  }

  lemma OneReply(w: World, i: Addr, j: Addr, l: Loc)
    requires i in w.nodes && j in w.nodes && w.nodes[i].me == i && w.nodes[j].me == j
    requires Placed(w.nodes[i], w.nodes[j], w.net, l)
    ensures |RepliesInFlight(w, i, j)| == One(l.Answered?)
  {
    var r := RepliesInFlight(w, i, j);
    if l.Answered? {
      assert r == {Env(l.id, j, i, CsReply(l.lam))};
    } else {
      assert r == {};
    }
  }

  lemma OneComparison(w: World, i: Addr, j: Addr, l: Loc)
    requires i in w.nodes && j in w.nodes && w.nodes[i].me == i
    requires Placed(w.nodes[i], w.nodes[j], w.net, l)
    ensures |Comparisons(w, i, j)| == One(l.Weighed?)
  {
    var r := Comparisons(w, i, j);
    if l.Weighed? {
      var t :| t in w.nodes[j].tasks && t.id == l.id && t.from == i;
      assert r == {t};
    } else {
      assert r == {};
    }
  }

  /* ---- Entries are totally ordered ---- */

  /** Step k of the run takes p into the critical section. */
  predicate Enters(ws: seq<World>, k: nat, p: Addr)
    requires k + 1 < |ws|
  {
    && p in ws[k].nodes && ws[k].nodes[p].phase != InCs
    && p in ws[k + 1].nodes && ws[k + 1].nodes[p].phase == InCs
  }

  /** The entry with priority x is over or in progress, and everything still to come is behind it. */
  ghost predicate Past(w: World, x: Priority) {
    forall j :: Live(w, j) ==>
      && x.ts <= w.nodes[j].clock
      && (w.nodes[j].reqTs.Some? && !(w.nodes[j].phase == InCs && Prio(w.nodes[j]) == x) ==> Before(x, Prio(w.nodes[j])))
  }

  lemma EntryIsPast(w: World, loc: Where, p: Addr)
    requires Inv(w, loc) && Holds(w, p)
    ensures w.nodes[p].reqTs.Some? && Past(w, Prio(w.nodes[p]))
  {
    HolderIsForemost(w, loc, p);
    forall j | Live(w, j)
      ensures NodeOk(w.nodes[j], j, w.nodes.Keys, w.next)
    {
    }
  }

  lemma StepKeepsPast(w: World, loc: Where, s: Step, x: Priority)
    requires Inv(w, loc) && Enabled(w, s) && Past(w, x)
    ensures Past(Next(w, s), x)
  {
    var p := Actor(s);
    assert NodeOk(w.nodes[p], p, w.nodes.Keys, w.next);
    assert Live(w, p);
  }

  lemma {:induction false} RunKeepsPast(ws: seq<World>, ss: seq<Step>, k: nat, m: nat, x: Priority)
    requires IsRun(ws, ss) && k <= m < |ws| && Past(ws[k], x)
    ensures Past(ws[m], x)
  {
    if k < m {
      RunKeepsPast(ws, ss, k, m - 1, x);
      assert StepAt(ws, ss, m - 1);
      var loc := RunInv(ws, ss, m - 1);
      StepKeepsPast(ws[m - 1], loc, ss[m - 1], x);
    }
  }

  lemma EntryIsBeyond(w: World, loc: Where, s: Step, q: Addr, x: Priority)
    requires Inv(w, loc) && Enabled(w, s) && Past(w, x)
    requires q in w.nodes && w.nodes[q].phase != InCs && Next(w, s).nodes[q].phase == InCs
    ensures Holds(Next(w, s), q)
    ensures var n := Next(w, s).nodes[q]; n.reqTs.Some? && Before(x, Prio(n))
  {
    assert Actor(s) == q && Live(w, q);
    assert NodeOk(w.nodes[q], q, w.nodes.Keys, w.next);
  }

  /** Successive entries, by whichever peers, carry strictly increasing priorities. */
  lemma EntriesIncrease(ws: seq<World>, ss: seq<Step>, k: nat, p: Addr, m: nat, q: Addr)
    requires IsRun(ws, ss) && k < m < |ss| && Enters(ws, k, p) && Enters(ws, m, q)
    ensures ws[k + 1].nodes[p].reqTs.Some? && ws[m + 1].nodes[q].reqTs.Some?
    ensures Before(Prio(ws[k + 1].nodes[p]), Prio(ws[m + 1].nodes[q]))
  {
    assert StepAt(ws, ss, k) && StepAt(ws, ss, m);
    assert Live(ws[k], p) && Holds(ws[k + 1], p);
    var loc := RunInv(ws, ss, k + 1);
    EntryIsPast(ws[k + 1], loc, p);
    var x := Prio(ws[k + 1].nodes[p]);
    RunKeepsPast(ws, ss, k + 1, m, x);
    var at := RunInv(ws, ss, m);
    EntryIsBeyond(ws[m], at, ss[m], q, x);
  }
}
