/** What every crash-free run keeps, whatever order messages are delivered in: each commit is applied
    exactly once at each replica or is on its way there, and no transaction has two outcomes. */
module ReplicationInvariant {
  import opened Types
  import opened MutexInvariant
  import opened Transactions
  import opened Replication

  /** What the outcomes recorded so far allow in flight. */
  ghost predicate CarriesHistory(e: Envelope, log: map<TxId, Commit>, aborted: set<TxId>) {
    e.body.Data? ==>
      match e.body.data
      case TxCommit(tx, user, ops) => tx in log && log[tx].owner == e.from && log[tx].user == user && log[tx].ops == ops
      case TxAbort(tx, _) => tx in aborted
      case PinSync(_) => true
  }

  ghost predicate DataOk(net: set<Envelope>, log: map<TxId, Commit>, aborted: set<TxId>) {
    && (forall e :: e in net ==> CarriesHistory(e, log, aborted))
    && (forall e, f, tx :: e in net && f in net && e.to == f.to && IsCommitOf(e, tx) && IsCommitOf(f, tx) ==> e == f)
  }

  ghost predicate HistoryOk(s: System) {
    && s.log.Keys <= s.owner.Keys
    && s.aborted <= s.owner.Keys
    && s.log.Keys !! s.aborted
    && forall tx :: tx in s.log ==> s.log[tx].owner == s.owner[tx]
  }

  /** The commit is known and has reached p. */
  ghost predicate Reached(s: System, p: Addr, tx: TxId) {
    tx in s.log && !Incoming(s.w.net, p, tx)
  }

  /** How often a replica that every recorded commit but the incoming ones has reached holds x. */
  ghost function Due(s: System, p: Addr, st: Station, x: Entry): nat {
    if Reached(s, p, x.tx) && x.user == s.log[x.tx].user then Bookings(s.log[x.tx].ops, st, x.start, x.end) else 0
  }

  function Count(r: Replica, st: Station, x: Entry): nat {
    multiset(Lookup(r.reservations, st))[x]
  }

  /** A replica's record of a transaction agrees with the recorded outcome. */
  ghost predicate RecordOk(s: System, p: Addr, tx: TxId, status: Status) {
    && tx in s.owner
    && match status
       case Active => s.owner[tx] == p && tx !in s.log && tx !in s.aborted
       case Committed => Reached(s, p, tx)
       case Aborted => tx in s.aborted
  }

  ghost predicate ReplicaOk(s: System, p: Addr, r: Replica) {
    && (forall tx :: tx in r.txs ==> RecordOk(s, p, tx, r.txs[tx].status))
    && (forall tx :: Reached(s, p, tx) ==> tx in r.txs && r.txs[tx].status == Committed)
    && (r.current.Some? ==> r.current.value in r.txs)
    && (forall st, x :: Count(r, st, x) == Due(s, p, st, x))
  }

  ghost predicate TxInv(s: System, loc: Where) {
    && Inv(s.w, loc)
    && s.w.dead == {}
    && s.reps.Keys == s.w.nodes.Keys
    && HistoryOk(s)
    && DataOk(s.w.net, s.log, s.aborted)
    && forall p :: p in s.reps ==> ReplicaOk(s, p, s.reps[p])
  }

  /* ---- Steps that leave a replica's tables alone ---- */

  /** From p's point of view nothing but the set of aborted transactions and of other peers' pending
      commits has grown. */
  ghost predicate GrowsPast(s: System, v: System, p: Addr) {
    && (forall tx :: tx in s.owner ==> tx in v.owner && v.owner[tx] == s.owner[tx])
    && s.aborted <= v.aborted
    && (forall tx :: tx in s.log ==> tx in v.log && v.log[tx] == s.log[tx] && (Incoming(v.w.net, p, tx) <==> Incoming(s.w.net, p, tx)))
    && (forall tx :: tx in v.log && tx !in s.log ==> Incoming(v.w.net, p, tx))
  }

  lemma UntouchedReplica(s: System, v: System, p: Addr, r: Replica)
    requires ReplicaOk(s, p, r) && GrowsPast(s, v, p)
    requires forall tx :: IsActive(r, tx) ==> tx !in v.log && tx !in v.aborted
    ensures ReplicaOk(v, p, r)
  {
    forall st, x
      ensures Count(r, st, x) == Due(v, p, st, x)
    {
      assert Count(r, st, x) == Due(s, p, st, x);
    }
  }

  /* ---- Messages and history ---- */

  /** The data messages a step adds. */
  function Posted(s: System, t: TxStep): set<Envelope>
    requires TxEnabled(s, t)
  {
    var b := Below(s, t);
    if !t.Protocol? && b.Some? && b.value.Send? then
      Copies(s.w.next, b.value.p, b.value.to, Data(s.w.nodes[b.value.p].clock + 1, b.value.data))
    else {}
  }

  lemma DataInFlight(s: System, t: TxStep, e: Envelope)
    requires TxEnabled(s, t) && IsData(e)
    ensures e in TxNext(s, t).w.net <==> (e in s.w.net && !(t.Deliver? && e == t.e)) || e in Posted(s, t)
  {
  }

  /** The decided transaction was open, and so unknown to log, aborted set and network. */
  lemma DecidedWasOpen(s: System, loc: Where, t: TxStep) returns (tx: TxId)
    requires TxInv(s, loc) && TxEnabled(s, t) && (t.CommitTx? || t.AbortTx?) && Undecided(s.reps[t.p])
    ensures tx == s.reps[t.p].current.value && tx in s.owner && s.owner[tx] == t.p && tx !in s.log && tx !in s.aborted
    ensures forall e :: e in s.w.net ==> !IsCommitOf(e, tx)
  {
    tx := s.reps[t.p].current.value;
    assert ReplicaOk(s, t.p, s.reps[t.p]);
    assert RecordOk(s, t.p, tx, s.reps[t.p].txs[tx].status);
    forall e | e in s.w.net
      ensures !IsCommitOf(e, tx)
    {
      assert CarriesHistory(e, s.log, s.aborted);
    }
  }

  lemma StepKeepsHistory(s: System, loc: Where, t: TxStep)
    requires TxInv(s, loc) && TxEnabled(s, t)
    ensures HistoryOk(TxNext(s, t))
  {
    if (t.CommitTx? || t.AbortTx?) && Undecided(s.reps[t.p]) {
      var tx := DecidedWasOpen(s, loc, t);
    }
  }

  /** A commit is posted exactly when its transaction enters the log, an abort when it enters the
      aborted set. */
  lemma PostedCarriesHistory(s: System, loc: Where, t: TxStep, e: Envelope)
    requires TxInv(s, loc) && TxEnabled(s, t) && e in Posted(s, t)
    ensures var v := TxNext(s, t); CarriesHistory(e, v.log, v.aborted)
    ensures forall f, tx :: f in s.w.net && IsCommitOf(e, tx) ==> !IsCommitOf(f, tx)
  {
    if (t.CommitTx? || t.AbortTx?) && Undecided(s.reps[t.p]) {
      var tx := DecidedWasOpen(s, loc, t);
    }
  }

  lemma StepKeepsData(s: System, loc: Where, t: TxStep)
    requires TxInv(s, loc) && TxEnabled(s, t)
    ensures var v := TxNext(s, t); DataOk(v.w.net, v.log, v.aborted)
  {
    var v := TxNext(s, t);
    StepKeepsLog(s, loc, t);
    forall e | e in v.w.net
      ensures CarriesHistory(e, v.log, v.aborted)
    {
      if IsData(e) {
        DataInFlight(s, t, e);
        if e in Posted(s, t) {
          PostedCarriesHistory(s, loc, t, e);
        } else {
          assert CarriesHistory(e, s.log, s.aborted);
        }
      }
    }
    forall e, f, tx | e in v.w.net && f in v.w.net && e.to == f.to && IsCommitOf(e, tx) && IsCommitOf(f, tx)
      ensures e == f
    {
      DataInFlight(s, t, e);
      DataInFlight(s, t, f);
      if e in Posted(s, t) {
        PostedCarriesHistory(s, loc, t, e);
      } else if f in Posted(s, t) {
        PostedCarriesHistory(s, loc, t, f);
      }
    }
  }

  lemma StepKeepsLog(s: System, loc: Where, t: TxStep)
    requires TxInv(s, loc) && TxEnabled(s, t)
    ensures var v := TxNext(s, t);
            && (forall tx :: tx in s.log ==> tx in v.log && v.log[tx] == s.log[tx])
            && s.aborted <= v.aborted
            && (forall tx :: tx in s.owner ==> tx in v.owner && v.owner[tx] == s.owner[tx])
  {
    if Commits(s, t) {
      var tx := DecidedWasOpen(s, loc, t);
    }
  }

  /* ---- Replicas ---- */

  /** The step brings p a commit it did not have. */
  predicate Applies(s: System, t: TxStep, p: Addr)
    requires TxEnabled(s, t)
  {
    || (Commits(s, t) && t.p == p)
    || (t.Deliver? && t.e.to == p && t.e.body.data.TxCommit?)
  }

  /** A commit posted by the step is not one of an earlier transaction. */
  lemma PostedIsNew(s: System, loc: Where, t: TxStep, e: Envelope, tx: TxId)
    requires TxInv(s, loc) && TxEnabled(s, t) && e in Posted(s, t) && tx in s.log
    ensures !IsCommitOf(e, tx)
  {
    if (t.CommitTx? || t.AbortTx?) && Undecided(s.reps[t.p]) {
      var d := DecidedWasOpen(s, loc, t);
    }
  }

  lemma IncomingStays(s: System, loc: Where, t: TxStep, p: Addr, tx: TxId)
    requires TxInv(s, loc) && TxEnabled(s, t) && p in s.reps && !Applies(s, t, p) && tx in s.log
    ensures Incoming(TxNext(s, t).w.net, p, tx) <==> Incoming(s.w.net, p, tx)
  {
    forall e: Envelope | e.to == p && IsCommitOf(e, tx)
      ensures e in TxNext(s, t).w.net <==> e in s.w.net
    {
      DataInFlight(s, t, e);
      if e in Posted(s, t) {
        PostedIsNew(s, loc, t, e, tx);
      }
    }
  }

  lemma OthersGrowPast(s: System, loc: Where, t: TxStep, p: Addr)
    requires TxInv(s, loc) && TxEnabled(s, t) && p in s.reps && !Applies(s, t, p)
    ensures GrowsPast(s, TxNext(s, t), p)
  {
    var v := TxNext(s, t);
    StepKeepsLog(s, loc, t);
    forall tx | tx in s.log
      ensures Incoming(v.w.net, p, tx) <==> Incoming(s.w.net, p, tx)
    {
      IncomingStays(s, loc, t, p, tx);
    }
    if Commits(s, t) {
      PostedReachesAll(s, loc, t, p);
    }
  }

  lemma PostedReachesAll(s: System, loc: Where, t: TxStep, p: Addr)
    requires TxInv(s, loc) && TxEnabled(s, t) && Commits(s, t) && p in s.reps && p != t.p
    ensures Incoming(TxNext(s, t).w.net, p, s.reps[t.p].current.value)
  {
    assert PairOk(s.w, t.p, p, loc(t.p, p));
    var r := s.reps[t.p];
    var e := Env(s.w.next, t.p, p, Data(s.w.nodes[t.p].clock + 1, CommitMessage(r, r.current.value).value));
    assert e in Posted(s, t);
    DataInFlight(s, t, e);
    assert IsCommitOf(e, r.current.value);
  }

  /** A change of records and current transaction that respects the recorded outcomes. */
  lemma RecordsChange(v: System, p: Addr, r: Replica, r': Replica)
    requires ReplicaOk(v, p, r)
    requires r'.reservations == r.reservations
    requires forall tx :: tx in r'.txs ==> RecordOk(v, p, tx, r'.txs[tx].status)
    requires forall tx :: tx in r.txs && r.txs[tx].status == Committed ==> tx in r'.txs && r'.txs[tx].status == Committed
    requires r'.current.Some? ==> r'.current.value in r'.txs
    ensures ReplicaOk(v, p, r')
  {
    forall st, x
      ensures Count(r', st, x) == Due(v, p, st, x)
    {
      assert Count(r, st, x) == Due(v, p, st, x);
    }
  }

  lemma CountsStay(s: System, v: System, p: Addr, r: Replica, r': Replica)
    requires ReplicaOk(s, p, r) && GrowsPast(s, v, p) && r'.reservations == r.reservations
    ensures forall st, x :: Count(r', st, x) == Due(v, p, st, x)
  {
    forall st, x
      ensures Count(r', st, x) == Due(v, p, st, x)
    {
      assert Count(r, st, x) == Due(s, p, st, x);
    }
  }

  lemma AbortingReplica(s: System, loc: Where, t: TxStep)
    requires TxInv(s, loc) && TxEnabled(s, t) && Aborts(s, t)
    ensures var v := TxNext(s, t); ReplicaOk(v, t.p, v.reps[t.p])
  {
    var v := TxNext(s, t);
    var p := t.p;
    var r, r' := s.reps[p], v.reps[p];
    var tx := DecidedWasOpen(s, loc, t);
    OthersGrowPast(s, loc, t, p);
    CountsStay(s, v, p, r, r');
    forall u | u in r'.txs
      ensures RecordOk(v, p, u, r'.txs[u].status)
    {
      assert RecordOk(s, p, u, r.txs[u].status);
    }
  }

  lemma CommittingReplica(s: System, loc: Where, t: TxStep)
    requires TxInv(s, loc) && TxEnabled(s, t) && Commits(s, t)
    ensures var v := TxNext(s, t); ReplicaOk(v, t.p, v.reps[t.p])
  {
    var v := TxNext(s, t);
    var p := t.p;
    var r, r' := s.reps[p], v.reps[p];
    var tx := DecidedWasOpen(s, loc, t);
    forall u
      ensures Incoming(v.w.net, p, u) <==> Incoming(s.w.net, p, u)
    {
      CommitterReceivesNothing(s, loc, t, u);
    }
    forall st, x
      ensures Count(r', st, x) == Due(v, p, st, x)
    {
      assert Count(r, st, x) == Due(s, p, st, x);
      ApplyOpsBookings(r, tx, r.txs[tx].user, r.txs[tx].ops, st, x);
    }
    forall u | u in r'.txs
      ensures RecordOk(v, p, u, r'.txs[u].status)
    {
      assert RecordOk(s, p, u, r.txs[u].status);
    }
  }

  lemma CommitterReceivesNothing(s: System, loc: Where, t: TxStep, u: TxId)
    requires TxInv(s, loc) && TxEnabled(s, t) && Commits(s, t)
    ensures Incoming(TxNext(s, t).w.net, t.p, u) <==> Incoming(s.w.net, t.p, u)
  {
    assert NodeOk(s.w.nodes[t.p], t.p, s.w.nodes.Keys, s.w.next);
    var v := TxNext(s, t);
    if e :| e in s.w.net && e.to == t.p && IsCommitOf(e, u) {
      DataInFlight(s, t, e);
    }
    if e :| e in v.w.net && e.to == t.p && IsCommitOf(e, u) {
      DataInFlight(s, t, e);
    }
  }

  /** Handling a commit removes it from what is incoming, and nothing else. */
  lemma DeliveredCommit(s: System, loc: Where, t: TxStep, u: TxId)
    requires TxInv(s, loc) && TxEnabled(s, t) && t.Deliver? && t.e.body.data.TxCommit?
    ensures Incoming(TxNext(s, t).w.net, t.e.to, u) <==> Incoming(s.w.net, t.e.to, u) && u != t.e.body.data.tx
  {
    var v := TxNext(s, t);
    if e :| e in s.w.net && e.to == t.e.to && IsCommitOf(e, u) {
      DataInFlight(s, t, e);
    }
    if e :| e in v.w.net && e.to == t.e.to && IsCommitOf(e, u) {
      DataInFlight(s, t, e);
    }
    assert IsCommitOf(t.e, t.e.body.data.tx);
  }

  lemma ReceivingReplica(s: System, loc: Where, t: TxStep)
    requires TxInv(s, loc) && TxEnabled(s, t) && t.Deliver? && t.e.body.data.TxCommit?
    ensures var v := TxNext(s, t); ReplicaOk(v, t.e.to, v.reps[t.e.to])
  {
    var v := TxNext(s, t);
    var p := t.e.to;
    var r, r' := s.reps[p], v.reps[p];
    var d := t.e.body.data;
    assert CarriesHistory(t.e, s.log, s.aborted);
    assert IsCommitOf(t.e, d.tx) && Incoming(s.w.net, p, d.tx);
    assert ReplicaOk(s, p, r);
    assert d.tx !in r.txs;
    forall u
      ensures Incoming(v.w.net, p, u) <==> Incoming(s.w.net, p, u) && u != d.tx
    {
      DeliveredCommit(s, loc, t, u);
    }
    forall st, x
      ensures Count(r', st, x) == Due(v, p, st, x)
    {
      assert Count(r, st, x) == Due(s, p, st, x);
      ApplyOpsBookings(r.(txs := r'.txs), d.tx, d.user, d.ops, st, x);
    }
    forall u | u in r'.txs
      ensures RecordOk(v, p, u, r'.txs[u].status)
    {
      assert u != d.tx ==> RecordOk(s, p, u, r.txs[u].status);
    }
  }

  lemma RollBackRemovesNothing(v: System, p: Addr, r: Replica, tx: TxId, user: string)
    requires ReplicaOk(v, p, r) && tx in v.aborted && tx in v.owner && tx !in v.log
    ensures ReplicaOk(v, p, TakeAbort(r, tx, user))
    ensures forall st :: Lookup(TakeAbort(r, tx, user).reservations, st) == Lookup(r.reservations, st)
  {
    var r' := TakeAbort(r, tx, user);
    forall st
      ensures Lookup(r'.reservations, st) == Lookup(r.reservations, st)
    {
      forall x | x in Lookup(r.reservations, st)
        ensures x.tx != tx
      {
        assert x in multiset(Lookup(r.reservations, st));
        assert Count(r, st, x) == Due(v, p, st, x);
      }
      WithoutAbsent(Lookup(r.reservations, st), tx);
    }
    forall st, x
      ensures Count(r', st, x) == Due(v, p, st, x)
    {
      assert Count(r, st, x) == Due(v, p, st, x);
    }
    forall u | u in r'.txs
      ensures RecordOk(v, p, u, r'.txs[u].status)
    {
      assert u != tx ==> RecordOk(v, p, u, r.txs[u].status);
    }
  }

  lemma UndecidedStaysOpen(s: System, loc: Where, t: TxStep, p: Addr, tx: TxId)
    requires TxInv(s, loc) && TxEnabled(s, t) && p in s.reps && IsActive(s.reps[p], tx)
    requires !Applies(s, t, p) && !(Aborts(s, t) && t.p == p)
    ensures var v := TxNext(s, t); tx !in v.log && tx !in v.aborted
  {
    assert ReplicaOk(s, p, s.reps[p]);
    assert RecordOk(s, p, tx, Active);
    if Commits(s, t) || Aborts(s, t) {
      var d := DecidedWasOpen(s, loc, t);
    }
  }

  lemma OtherReplica(s: System, loc: Where, t: TxStep, p: Addr)
    requires TxInv(s, loc) && TxEnabled(s, t) && p in s.reps
    requires !Applies(s, t, p) && !(Aborts(s, t) && t.p == p)
    ensures var v := TxNext(s, t); ReplicaOk(v, p, v.reps[p])
  {
    var v := TxNext(s, t);
    var r := s.reps[p];
    OthersGrowPast(s, loc, t, p);
    forall tx | IsActive(r, tx)
      ensures tx !in v.log && tx !in v.aborted
    {
      UndecidedStaysOpen(s, loc, t, p, tx);
    }
    UntouchedReplica(s, v, p, r);
    if t.Deliver? && t.e.to == p {
      OtherDelivery(s, loc, t, v);
    } else {
      LocalRecords(s, t, p, v);
    }
  }

  lemma OtherDelivery(s: System, loc: Where, t: TxStep, v: System)
    requires TxInv(s, loc) && TxEnabled(s, t) && t.Deliver? && !t.e.body.data.TxCommit? && v == TxNext(s, t)
    requires ReplicaOk(v, t.e.to, s.reps[t.e.to])
    ensures ReplicaOk(v, t.e.to, v.reps[t.e.to])
  {
    var r := s.reps[t.e.to];
    assert CarriesHistory(t.e, s.log, s.aborted);
    match t.e.body.data
    case TxAbort(tx, user) => RollBackRemovesNothing(v, t.e.to, r, tx, user);
    case PinSync(_) => RecordsChange(v, t.e.to, r, v.reps[t.e.to]);
  }

  /** Beginning, extending or closing a transaction touches the records only. */
  lemma LocalRecords(s: System, t: TxStep, p: Addr, v: System)
    requires TxEnabled(s, t) && v == TxNext(s, t) && p in s.reps && HistoryOk(s)
    requires !(t.Deliver? && t.e.to == p) && !(Commits(s, t) && t.p == p) && !(Aborts(s, t) && t.p == p)
    requires ReplicaOk(v, p, s.reps[p])
    ensures ReplicaOk(v, p, v.reps[p])
  {
    var r, r' := s.reps[p], v.reps[p];
    forall tx | tx in r'.txs
      ensures RecordOk(v, p, tx, r'.txs[tx].status)
    {
      assert tx in r.txs ==> RecordOk(v, p, tx, r.txs[tx].status);
    }
    RecordsChange(v, p, r, r');
  }

  lemma StepKeepsReplica(s: System, loc: Where, t: TxStep, p: Addr)
    requires TxInv(s, loc) && TxEnabled(s, t) && p in s.reps
    ensures var v := TxNext(s, t); v.reps.Keys == s.reps.Keys && ReplicaOk(v, p, v.reps[p])
  {
    if Commits(s, t) && t.p == p {
      CommittingReplica(s, loc, t);
    } else if Aborts(s, t) && t.p == p {
      AbortingReplica(s, loc, t);
    } else if Applies(s, t, p) {
      ReceivingReplica(s, loc, t);
    } else {
      OtherReplica(s, loc, t, p);
    }
  }

  lemma StepKeepsTxInv(s: System, loc: Where, t: TxStep) returns (loc': Where)
    requires TxInv(s, loc) && TxEnabled(s, t)
    ensures TxInv(TxNext(s, t), loc')
    ensures Below(s, t).None? ==> loc' == loc
    ensures Below(s, t).Some? ==> forall i, j :: loc'(i, j) == Moved(s.w, Below(s, t).value, i, j, loc(i, j))
  {
    var v := TxNext(s, t);
    loc' := loc;
    if Below(s, t).Some? {
      loc' := StepKeepsInv(s.w, Below(s, t).value, loc);
      StepKeepsBase(s.w, Below(s, t).value);
    }
    StepKeepsHistory(s, loc, t);
    StepKeepsData(s, loc, t);
    forall p | p in v.reps
      ensures ReplicaOk(v, p, v.reps[p])
    {
      StepKeepsReplica(s, loc, t, p);
    }
    StepKeepsPeers(s, loc, t);
  }

  lemma StepKeepsReplicas(s: System, t: TxStep)
    requires TxEnabled(s, t)
    ensures NextReplicas(s, t).Keys == s.reps.Keys
  {
  }

  lemma NobodyDies(s: System, t: TxStep)
    requires TxEnabled(s, t) && s.w.dead == {}
    ensures TxNext(s, t).w.dead == {} && TxNext(s, t).w.nodes.Keys == s.w.nodes.Keys
  {
    if Below(s, t).Some? {
      assert !Below(s, t).value.Crash?;
    }
  }

  lemma StepKeepsPeers(s: System, loc: Where, t: TxStep)
    requires TxInv(s, loc) && TxEnabled(s, t)
    ensures var v := TxNext(s, t); v.w.dead == {} && v.reps.Keys == v.w.nodes.Keys && v.reps.Keys == s.reps.Keys
  {
    StepKeepsReplicas(s, t);
    NobodyDies(s, t);
  }

  lemma InitTxInv(s: System) returns (loc: Where)
    requires InitSystem(s)
    ensures TxInv(s, loc)
  {
    loc := InitInv(s.w);
  }

  /** Every state of every crash-free run satisfies the invariant. */
  lemma TxRunInv(ss: seq<System>, ts: seq<TxStep>, k: nat) returns (loc: Where)
    requires IsTxRun(ss, ts) && k < |ss|
    ensures TxInv(ss[k], loc)
  {
    if k == 0 {
      loc := InitTxInv(ss[0]);
    } else {
      loc := TxRunInv(ss, ts, k - 1);
      assert TxStepAt(ss, ts, k - 1);
      loc := StepKeepsTxInv(ss[k - 1], loc, ts[k - 1]);
    }
  }
}
