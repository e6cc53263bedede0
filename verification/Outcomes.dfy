/** What every peer records about a transaction that was decided, and how it comes to know. */
module Outcomes {
  import opened Types
  import opened MutexInvariant
  import opened Transactions
  import opened Replication
  import opened ReplicationInvariant

  predicate HasStatus(s: System, p: Addr, tx: TxId, status: Status) {
    p in s.reps && tx in s.reps[p].txs && s.reps[p].txs[tx].status == status
  }

  predicate IsAbortOf(e: Envelope, tx: TxId) {
    e.body.Data? && e.body.data.TxAbort? && e.body.data.tx == tx
  }

  /** An abort message for the transaction is on its way to p. */
  ghost predicate AbortIncoming(s: System, p: Addr, tx: TxId) {
    exists e :: e in s.w.net && e.to == p && IsAbortOf(e, tx)
  }

  /** The user at the peer that began the transaction. */
  function UserOf(s: System, tx: TxId): string
    requires tx in s.owner && s.owner[tx] in s.reps
  {
    s.reps[s.owner[tx]].user
  }

  /** A committed transaction is recorded with its operations, everywhere; an aborted one without any,
      except where it was begun; each under the name of the user who began it. */
  ghost predicate RecordIs(s: System, p: Addr, tx: TxId, t: TxRecord) {
    && tx in s.owner && s.owner[tx] in s.reps && t.user == UserOf(s, tx)
    && (t.status == Committed ==> tx in s.log && t.ops == s.log[tx].ops && t.user == s.log[tx].user)
    && (t.status == Aborted && p != s.owner[tx] ==> t.ops == [])
  }

  /** q, which did not begin the aborted transaction, has recorded that unless the message is on its way. */
  ghost predicate AbortKnown(s: System, q: Addr, tx: TxId) {
    && tx in s.owner
    && (q == s.owner[tx] ==> HasStatus(s, q, tx, Aborted))
    && (q != s.owner[tx] ==> (HasStatus(s, q, tx, Aborted) <==> !AbortIncoming(s, q, tx)))
  }

  ghost predicate AbortOk(s: System, e: Envelope, tx: TxId) {
    IsAbortOf(e, tx) ==>
      tx in s.owner && s.owner[tx] in s.reps && e.from == s.owner[tx] && e.to != e.from && e.body.data.user == UserOf(s, tx)
  }

  ghost predicate OutcomeInv(s: System) {
    && (forall tx :: tx in s.owner ==> s.owner[tx] in s.reps)
    && (forall tx :: tx in s.log ==> tx in s.owner && s.owner[tx] in s.reps && s.log[tx].user == UserOf(s, tx))
    && (forall p, tx :: p in s.reps && tx in s.reps[p].txs ==> RecordIs(s, p, tx, s.reps[p].txs[tx]))
    && (forall q, tx :: q in s.reps && tx in s.aborted ==> AbortKnown(s, q, tx))
    && (forall e, tx :: e in s.w.net ==> AbortOk(s, e, tx))
    && (forall e, f, tx :: e in s.w.net && f in s.w.net && e.to == f.to && IsAbortOf(e, tx) && IsAbortOf(f, tx) ==> e == f)
  }

  /* ---- Steps ---- */

  lemma UsersStay(s: System, loc: Where, t: TxStep, tx: TxId)
    requires TxInv(s, loc) && TxEnabled(s, t) && tx in s.owner && s.owner[tx] in s.reps
    ensures var v := TxNext(s, t); tx in v.owner && v.owner[tx] == s.owner[tx] && v.owner[tx] in v.reps && UserOf(v, tx) == UserOf(s, tx)
  {
    StepKeepsLog(s, loc, t);
    StepKeepsPeers(s, loc, t);
  }

  /** Where a record of the step's result comes from. */
  lemma OldRecord(s: System, loc: Where, t: TxStep, p: Addr, tx: TxId, rec: TxRecord)
    requires TxInv(s, loc) && OutcomeInv(s) && TxEnabled(s, t)
    requires RecordIs(s, p, tx, rec)
    ensures RecordIs(TxNext(s, t), p, tx, rec)
  {
    UsersStay(s, loc, t, tx);
    StepKeepsLog(s, loc, t);
  }

  lemma DecidedRecord(s: System, loc: Where, t: TxStep, p: Addr, tx: TxId)
    requires TxInv(s, loc) && OutcomeInv(s) && TxEnabled(s, t) && (t.CommitTx? || t.AbortTx?) && t.p == p
    requires p in s.reps && tx in TxNext(s, t).reps[p].txs
    ensures RecordIs(TxNext(s, t), p, tx, TxNext(s, t).reps[p].txs[tx])
  {
    assert tx in s.reps[p].txs;
    OldRecord(s, loc, t, p, tx, s.reps[p].txs[tx]);
    if Undecided(s.reps[p]) {
      var d := DecidedWasOpen(s, loc, t);
    }
  }

  lemma CommitRecord(s: System, loc: Where, t: TxStep, p: Addr, tx: TxId)
    requires TxInv(s, loc) && OutcomeInv(s) && TxEnabled(s, t) && t.Deliver? && t.e.to == p && t.e.body.data.TxCommit?
    requires p in s.reps && tx in TxNext(s, t).reps[p].txs
    ensures RecordIs(TxNext(s, t), p, tx, TxNext(s, t).reps[p].txs[tx])
  {
    var d := t.e.body.data;
    assert CarriesHistory(t.e, s.log, s.aborted);
    if tx == d.tx {
      assert IsCommitOf(t.e, tx) && Incoming(s.w.net, p, tx);
      assert ReplicaOk(s, p, s.reps[p]);
      assert tx !in s.reps[p].txs;
      OldRecord(s, loc, t, p, tx, TxRecord(d.user, d.ops, Committed));
    } else {
      OldRecord(s, loc, t, p, tx, s.reps[p].txs[tx]);
    }
  }

  lemma AbortRecord(s: System, loc: Where, t: TxStep, p: Addr, tx: TxId)
    requires TxInv(s, loc) && OutcomeInv(s) && TxEnabled(s, t) && t.Deliver? && t.e.to == p && t.e.body.data.TxAbort?
    requires p in s.reps && tx in TxNext(s, t).reps[p].txs
    ensures RecordIs(TxNext(s, t), p, tx, TxNext(s, t).reps[p].txs[tx])
  {
    var d := t.e.body.data;
    assert CarriesHistory(t.e, s.log, s.aborted) && AbortOk(s, t.e, d.tx);
    if tx in s.reps[p].txs {
      assert ReplicaOk(s, p, s.reps[p]) && RecordOk(s, p, tx, s.reps[p].txs[tx].status);
      OldRecord(s, loc, t, p, tx, s.reps[p].txs[tx]);
    } else {
      OldRecord(s, loc, t, p, tx, TxRecord(d.user, [], Aborted));
    }
  }

  lemma BegunRecord(s: System, loc: Where, t: TxStep, p: Addr, tx: TxId)
    requires TxInv(s, loc) && OutcomeInv(s) && TxEnabled(s, t) && (t.BeginTx? || t.AddTxOp?) && t.p == p
    requires p in s.reps && tx in TxNext(s, t).reps[p].txs
    ensures RecordIs(TxNext(s, t), p, tx, TxNext(s, t).reps[p].txs[tx])
  {
    if tx in s.reps[p].txs {
      OldRecord(s, loc, t, p, tx, s.reps[p].txs[tx]);
    }
  }

  lemma SameRecord(s: System, loc: Where, t: TxStep, p: Addr, tx: TxId)
    requires TxInv(s, loc) && OutcomeInv(s) && TxEnabled(s, t)
    requires !((t.CommitTx? || t.AbortTx? || t.BeginTx? || t.AddTxOp?) && t.p == p)
    requires !(t.Deliver? && t.e.to == p && !t.e.body.data.PinSync?)
    requires p in s.reps && tx in TxNext(s, t).reps[p].txs
    ensures RecordIs(TxNext(s, t), p, tx, TxNext(s, t).reps[p].txs[tx])
  {
    assert TxNext(s, t).reps[p].txs == s.reps[p].txs;
    OldRecord(s, loc, t, p, tx, s.reps[p].txs[tx]);
  }

  lemma StepKeepsRecord(s: System, loc: Where, t: TxStep, p: Addr, tx: TxId)
    requires TxInv(s, loc) && OutcomeInv(s) && TxEnabled(s, t) && p in s.reps && tx in TxNext(s, t).reps[p].txs
    ensures RecordIs(TxNext(s, t), p, tx, TxNext(s, t).reps[p].txs[tx])
  {
    if t.Deliver? && t.e.to == p && t.e.body.data.TxCommit? {
      CommitRecord(s, loc, t, p, tx);
    } else if t.Deliver? && t.e.to == p && t.e.body.data.TxAbort? {
      AbortRecord(s, loc, t, p, tx);
    } else if (t.CommitTx? || t.AbortTx?) && t.p == p {
      DecidedRecord(s, loc, t, p, tx);
    } else if (t.BeginTx? || t.AddTxOp?) && t.p == p {
      BegunRecord(s, loc, t, p, tx);
    } else {
      SameRecord(s, loc, t, p, tx);
    }
  }

  /* ---- Messages ---- */

  /** An abort is posted only by the step that aborts, and no other of its transaction is under way. */
  lemma PostedAbort(s: System, loc: Where, t: TxStep, e: Envelope, tx: TxId)
    requires TxInv(s, loc) && OutcomeInv(s) && TxEnabled(s, t) && e in Posted(s, t) && IsAbortOf(e, tx)
    ensures Aborts(s, t) && tx == s.reps[t.p].current.value && AbortOk(s, e, tx)
    ensures forall f :: f in s.w.net ==> !IsAbortOf(f, tx)
  {
    var d := DecidedWasOpen(s, loc, t);
    assert RecordIs(s, t.p, d, s.reps[t.p].txs[d]);
    assert NodeOk(s.w.nodes[t.p], t.p, s.w.nodes.Keys, s.w.next);
    forall f | f in s.w.net
      ensures !IsAbortOf(f, d)
    {
      assert CarriesHistory(f, s.log, s.aborted);
    }
  }

  lemma StepKeepsAbort(s: System, loc: Where, t: TxStep, e: Envelope, tx: TxId)
    requires TxInv(s, loc) && OutcomeInv(s) && TxEnabled(s, t) && e in TxNext(s, t).w.net && IsAbortOf(e, tx)
    ensures AbortOk(TxNext(s, t), e, tx)
  {
    DataInFlight(s, t, e);
    if e in Posted(s, t) {
      PostedAbort(s, loc, t, e, tx);
    }
    assert AbortOk(s, e, tx);
    UsersStay(s, loc, t, tx);
  }

  lemma StepKeepsOneAbort(s: System, loc: Where, t: TxStep, e: Envelope, f: Envelope, tx: TxId)
    requires TxInv(s, loc) && OutcomeInv(s) && TxEnabled(s, t) && e in TxNext(s, t).w.net && f in TxNext(s, t).w.net
    requires e.to == f.to && IsAbortOf(e, tx) && IsAbortOf(f, tx)
    ensures e == f
  {
    DataInFlight(s, t, e);
    DataInFlight(s, t, f);
    if e in Posted(s, t) {
      PostedAbort(s, loc, t, e, tx);
    } else if f in Posted(s, t) {
      PostedAbort(s, loc, t, f, tx);
    }
  }

  lemma AbortIsPosted(s: System, loc: Where, t: TxStep, q: Addr) returns (e: Envelope)
    requires TxInv(s, loc) && TxEnabled(s, t) && Aborts(s, t) && q in s.reps && q != t.p
    ensures var r := s.reps[t.p];
            e in Posted(s, t) && e.from == t.p && e.to == q
            && e.body == Data(s.w.nodes[t.p].clock + 1, TxAbort(r.current.value, r.txs[r.current.value].user))
  {
    assert PairOk(s.w, t.p, q, loc(t.p, q));
    var r := s.reps[t.p];
    e := Env(s.w.next, t.p, q, Data(s.w.nodes[t.p].clock + 1, TxAbort(r.current.value, r.txs[r.current.value].user)));
  }

  /** Everybody else is told. */
  lemma AbortIsAnnounced(s: System, loc: Where, t: TxStep, q: Addr)
    requires TxInv(s, loc) && OutcomeInv(s) && TxEnabled(s, t) && Aborts(s, t) && q in s.reps && q != t.p
    ensures var tx := s.reps[t.p].current.value;
            exists e :: e in TxNext(s, t).w.net && e.from == t.p && e.to == q && IsAbortOf(e, tx)
                        && e.body.data.user == s.reps[t.p].user
  {
    var e := AbortIsPosted(s, loc, t, q);
    var tx := s.reps[t.p].current.value;
    var d := DecidedWasOpen(s, loc, t);
    assert RecordIs(s, t.p, tx, s.reps[t.p].txs[tx]);
    DataInFlight(s, t, e);
    assert IsAbortOf(e, tx);
  }

  /* ---- Who knows ---- */

  lemma NewlyAborted(s: System, loc: Where, t: TxStep, q: Addr, tx: TxId)
    requires TxInv(s, loc) && OutcomeInv(s) && TxEnabled(s, t) && q in s.reps && tx in TxNext(s, t).aborted && tx !in s.aborted
    ensures AbortKnown(TxNext(s, t), q, tx)
  {
    var d := DecidedWasOpen(s, loc, t);
    UsersStay(s, loc, t, tx);
    if q != t.p {
      AbortIsAnnounced(s, loc, t, q);
      assert ReplicaOk(s, q, s.reps[q]);
      assert tx in s.reps[q].txs ==> RecordOk(s, q, tx, s.reps[q].txs[tx].status);
    }
  }

  lemma DeliveryKeepsAborted(s: System, loc: Where, t: TxStep, q: Addr, tx: TxId)
    requires TxInv(s, loc) && TxEnabled(s, t) && q in s.reps && tx in s.aborted
    requires t.Deliver? && t.e.to == q && !IsAbortOf(t.e, tx)
    ensures HasStatus(TxNext(s, t), q, tx, Aborted) <==> HasStatus(s, q, tx, Aborted)
  {
    assert CarriesHistory(t.e, s.log, s.aborted);
  }

  lemma UserKeepsAborted(s: System, loc: Where, t: TxStep, q: Addr, tx: TxId)
    requires TxInv(s, loc) && TxEnabled(s, t) && q in s.reps && tx in s.aborted
    requires !(t.Deliver? && t.e.to == q)
    ensures HasStatus(TxNext(s, t), q, tx, Aborted) <==> HasStatus(s, q, tx, Aborted)
  {
    assert ReplicaOk(s, q, s.reps[q]);
    assert tx in s.reps[q].txs ==> RecordOk(s, q, tx, s.reps[q].txs[tx].status);
  }

  /** A known outcome is not changed any more. */
  lemma AbortedStays(s: System, loc: Where, t: TxStep, q: Addr, tx: TxId)
    requires TxInv(s, loc) && TxEnabled(s, t) && q in s.reps && tx in s.aborted
    requires !(t.Deliver? && t.e.to == q && IsAbortOf(t.e, tx))
    ensures HasStatus(TxNext(s, t), q, tx, Aborted) <==> HasStatus(s, q, tx, Aborted)
  {
    if t.Deliver? && t.e.to == q {
      DeliveryKeepsAborted(s, loc, t, q, tx);
    } else {
      UserKeepsAborted(s, loc, t, q, tx);
    }
  }

  lemma IncomingAbortStays(s: System, loc: Where, t: TxStep, q: Addr, tx: TxId)
    requires TxInv(s, loc) && OutcomeInv(s) && TxEnabled(s, t) && tx in s.aborted
    requires !(t.Deliver? && t.e.to == q && IsAbortOf(t.e, tx))
    ensures AbortIncoming(TxNext(s, t), q, tx) <==> AbortIncoming(s, q, tx)
  {
    forall e: Envelope | e.to == q && IsAbortOf(e, tx)
      ensures e in TxNext(s, t).w.net <==> e in s.w.net
    {
      DataInFlight(s, t, e);
      if e in Posted(s, t) {
        PostedAbort(s, loc, t, e, tx);
        var d := DecidedWasOpen(s, loc, t);
      }
    }
  }

  lemma AbortArrives(s: System, loc: Where, t: TxStep, tx: TxId)
    requires TxInv(s, loc) && OutcomeInv(s) && TxEnabled(s, t) && t.Deliver? && IsAbortOf(t.e, tx)
    ensures HasStatus(TxNext(s, t), t.e.to, tx, Aborted) && !AbortIncoming(TxNext(s, t), t.e.to, tx)
  {
    forall e | e in TxNext(s, t).w.net && e.to == t.e.to
      ensures !IsAbortOf(e, tx)
    {
      if IsAbortOf(e, tx) {
        DataInFlight(s, t, e);
      }
    }
  }

  lemma StepKeepsKnown(s: System, loc: Where, t: TxStep, q: Addr, tx: TxId)
    requires TxInv(s, loc) && OutcomeInv(s) && TxEnabled(s, t) && q in s.reps && tx in TxNext(s, t).aborted
    ensures AbortKnown(TxNext(s, t), q, tx)
  {
    if tx !in s.aborted {
      NewlyAborted(s, loc, t, q, tx);
    } else {
      assert AbortKnown(s, q, tx);
      UsersStay(s, loc, t, tx);
      if t.Deliver? && t.e.to == q && IsAbortOf(t.e, tx) {
        AbortArrives(s, loc, t, tx);
      } else {
        AbortedStays(s, loc, t, q, tx);
        IncomingAbortStays(s, loc, t, q, tx);
      }
    }
  }

  /* ---- Whole runs ---- */

  lemma OwnersStay(s: System, loc: Where, t: TxStep)
    requires TxInv(s, loc) && OutcomeInv(s) && TxEnabled(s, t)
    ensures var v := TxNext(s, t);
            && (forall tx :: tx in v.owner ==> v.owner[tx] in v.reps)
            && (forall tx :: tx in v.log ==> tx in v.owner && v.owner[tx] in v.reps && v.log[tx].user == UserOf(v, tx))
  {
    var v := TxNext(s, t);
    StepKeepsPeers(s, loc, t);
    forall tx | tx in v.log
      ensures tx in v.owner && v.owner[tx] in v.reps && v.log[tx].user == UserOf(v, tx)
    {
      if tx !in s.log {
        var d := DecidedWasOpen(s, loc, t);
        assert RecordIs(s, t.p, tx, s.reps[t.p].txs[tx]);
      }
      UsersStay(s, loc, t, tx);
    }
  }

  lemma StepKeepsOutcomes(s: System, loc: Where, t: TxStep)
    requires TxInv(s, loc) && OutcomeInv(s) && TxEnabled(s, t)
    ensures OutcomeInv(TxNext(s, t))
  {
    var v := TxNext(s, t);
    StepKeepsPeers(s, loc, t);
    OwnersStay(s, loc, t);
    forall p, tx | p in v.reps && tx in v.reps[p].txs
      ensures RecordIs(v, p, tx, v.reps[p].txs[tx])
    {
      StepKeepsRecord(s, loc, t, p, tx);
    }
    forall q, tx | q in v.reps && tx in v.aborted
      ensures AbortKnown(v, q, tx)
    {
      StepKeepsKnown(s, loc, t, q, tx);
    }
    forall e, tx | e in v.w.net && IsAbortOf(e, tx)
      ensures AbortOk(v, e, tx)
    {
      StepKeepsAbort(s, loc, t, e, tx);
    }
    forall e, f, tx | e in v.w.net && f in v.w.net && e.to == f.to && IsAbortOf(e, tx) && IsAbortOf(f, tx)
      ensures e == f
    {
      StepKeepsOneAbort(s, loc, t, e, f, tx);
    }
  }

  lemma InitOutcomes(s: System)
    requires InitSystem(s)
    ensures OutcomeInv(s)
  {
    forall p | p in s.reps
      ensures s.reps[p].txs == map[]
    {
      assert InitReplica(s.reps[p]);
    }
  }

  lemma {:induction false} OutcomeRunInv(ss: seq<System>, ts: seq<TxStep>, k: nat) returns (loc: Where)
    requires IsTxRun(ss, ts) && k < |ss|
    ensures TxInv(ss[k], loc) && OutcomeInv(ss[k])
  {
    if k == 0 {
      loc := TxRunInv(ss, ts, 0);
      InitOutcomes(ss[0]);
    } else {
      loc := OutcomeRunInv(ss, ts, k - 1);
      assert TxStepAt(ss, ts, k - 1);
      StepKeepsOutcomes(ss[k - 1], loc, ts[k - 1]);
      loc := TxRunInv(ss, ts, k);
    }
  }
}
