/** In-order delivery does the work of the wait before a commit: whoever holds the critical section
    has received every commit made before. */
module CommitVisibility {
  import opened Types
  import opened MutexSystem
  import opened MutexInvariant
  import opened MutexTheorems
  import opened Replication
  import opened ReplicationInvariant

  /** A commit from j to i was sent before j's permission for i's current request, and is gone once
      i has that permission. */
  ghost predicate CommitsPrecede(w: World, i: Addr, j: Addr, l: Loc) {
    forall e :: e in w.net && e.from == j && e.to == i && IsCommitMsg(e) ==>
      !l.Granted? && (l.Answered? ==> e.id < l.id)
  }

  ghost predicate AllPrecede(w: World, loc: Where) {
    forall i, j :: Live(w, i) && Live(w, j) && i != j ==> CommitsPrecede(w, i, j, loc(i, j))
  }

  /** The sender of a commit holds the section, so it has given its permission to nobody. */
  lemma CommitterGaveNothing(w: World, loc: Where, i: Addr, j: Addr)
    requires Inv(w, loc) && Holds(w, j) && Live(w, i) && i != j
    ensures !loc(i, j).Granted? && !loc(i, j).Answered?
  {
    HolderIsForemost(w, loc, j);
    assert Pair(w.nodes[i], w.nodes[j], w.net, loc(i, j));
    assert NodeOk(w.nodes[i], i, w.nodes.Keys, w.next);
  }

  /** One world step moves the permission without overtaking a commit that was in flight before. */
  lemma MoveKeepsPrecedence(w: World, loc: Where, x: Step, i: Addr, j: Addr, e: Envelope)
    requires Inv(w, loc) && Enabled(w, x) && !x.Crash?
    requires Live(w, i) && Live(w, j) && i != j && CommitsPrecede(w, i, j, loc(i, j))
    requires e in w.net && e !in Consumed(x) && e.from == j && e.to == i && IsCommitMsg(e)
    requires x.Receive? && x.e.body.CsReply? && x.e.from == j && x.e.to == i ==> x.e.id < e.id
    ensures var l := Moved(w, x, i, j, loc(i, j)); !l.Granted? && (l.Answered? ==> e.id < l.id)
  {
    assert Pair(w.nodes[i], w.nodes[j], w.net, loc(i, j));
    assert NodeOk(w.nodes[i], i, w.nodes.Keys, w.next);
    assert NodeOk(w.nodes[j], j, w.nodes.Keys, w.next);
  }

  lemma CommitKeepsPrecedence(s: System, loc: Where, t: TxStep, x: Step, i: Addr, j: Addr, e: Envelope)
    requires TxInv(s, loc) && TxEnabled(s, t) && InOrder(s, t) && Below(s, t) == Some(x)
    requires Live(s.w, i) && Live(s.w, j) && i != j && CommitsPrecede(s.w, i, j, loc(i, j))
    requires e in TxNext(s, t).w.net && e.from == j && e.to == i && IsCommitMsg(e)
    ensures var l := Moved(s.w, x, i, j, loc(i, j)); !l.Granted? && (l.Answered? ==> e.id < l.id)
  {
    DataInFlight(s, t, e);
    if e in Posted(s, t) {
      CommitterGaveNothing(s.w, loc, i, j);
    } else {
      MoveKeepsPrecedence(s.w, loc, x, i, j, e);
    }
  }

  lemma StepKeepsPrecedence(s: System, loc: Where, t: TxStep, loc': Where)
    requires TxInv(s, loc) && TxEnabled(s, t) && InOrder(s, t) && AllPrecede(s.w, loc)
    requires Below(s, t).None? ==> loc' == loc
    requires Below(s, t).Some? ==> forall i, j :: loc'(i, j) == Moved(s.w, Below(s, t).value, i, j, loc(i, j))
    ensures AllPrecede(TxNext(s, t).w, loc')
  {
    var v := TxNext(s, t);
    StepKeepsPeers(s, loc, t);
    if Below(s, t).Some? {
      var x := Below(s, t).value;
      StepKeepsBase(s.w, x);
      forall i, j | Live(v.w, i) && Live(v.w, j) && i != j
        ensures CommitsPrecede(v.w, i, j, loc'(i, j))
      {
        assert Live(s.w, i) && Live(s.w, j);
        assert CommitsPrecede(s.w, i, j, loc(i, j));
        forall e | e in v.w.net && e.from == j && e.to == i && IsCommitMsg(e)
          ensures !loc'(i, j).Granted? && (loc'(i, j).Answered? ==> e.id < loc'(i, j).id)
        {
          CommitKeepsPrecedence(s, loc, t, x, i, j, e);
        }
      }
    }
  }

  lemma InOrderRunPrecedes(ss: seq<System>, ts: seq<TxStep>, k: nat) returns (loc: Where)
    requires IsTxRun(ss, ts) && k < |ss| && forall m :: 0 <= m < k ==> InOrderAt(ss, ts, m)
    ensures TxInv(ss[k], loc) && AllPrecede(ss[k].w, loc)
  {
    if k == 0 {
      loc := InitTxInv(ss[0]);
    } else {
      var before := InOrderRunPrecedes(ss, ts, k - 1);
      assert TxStepAt(ss, ts, k - 1) && InOrderAt(ss, ts, k - 1);
      loc := StepKeepsTxInv(ss[k - 1], before, ts[k - 1]);
      StepKeepsPrecedence(ss[k - 1], before, ts[k - 1], loc);
    }
  }

  lemma NoCommitToHolder(w: World, loc: Where, p: Addr, e: Envelope)
    requires Inv(w, loc) && w.dead == {} && AllPrecede(w, loc) && Holds(w, p) && e in w.net && e.to == p
    ensures !IsCommitMsg(e)
  {
    HolderIsForemost(w, loc, p);
    assert Live(w, e.from) && e.from != p;
    assert CommitsPrecede(w, p, e.from, loc(p, e.from));
  }

  /** Under in-order delivery no commit is on its way to a peer that is in the critical section. */
  lemma HolderHasReceivedAll(ss: seq<System>, ts: seq<TxStep>, k: nat, p: Addr, tx: TxId)
    requires IsTxRun(ss, ts) && k < |ss| && forall m :: 0 <= m < k ==> InOrderAt(ss, ts, m)
    requires Holds(ss[k].w, p)
    ensures !Incoming(ss[k].w.net, p, tx)
  {
    var loc := InOrderRunPrecedes(ss, ts, k);
    forall e | e in ss[k].w.net && e.to == p
      ensures !IsCommitMsg(e)
    {
      NoCommitToHolder(ss[k].w, loc, p, e);
    }
  }

  /** So every disciplined run meets the barrier at each of its commits. */
  lemma DisciplineGivesBarrier(ss: seq<System>, ts: seq<TxStep>, k: nat)
    requires IsTxRun(ss, ts) && Disciplined(ss, ts) && k < |ts|
    ensures AfterBarrier(ss[k], ts[k])
  {
    assert TxStepAt(ss, ts, k);
    if !BarrierAt(ss, ts, k) {
      forall tx
        ensures !Incoming(ss[k].w.net, ts[k].p, tx)
      {
        HolderHasReceivedAll(ss, ts, k, ts[k].p, tx);
      }
    }
  }
}
