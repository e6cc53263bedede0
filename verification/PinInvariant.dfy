/** Pins come from committed transactions only, and a validated commit keeps clear of what its peer
    has received; a discipline turns that into clear of everything committed. */
module PinInvariant {
  import opened Types
  import opened MutexInvariant
  import opened Transactions
  import opened Replication
  import opened ReplicationInvariant
  import opened CommitVisibility

  predicate OpsClash(a: Op, b: Op) {
    match (a, b)
    case (Reserve(st, s1, e1), Reserve(tt, s2, e2)) => st == tt && TimesOverlap(s1, e1, s2, e2)
    case (PinText(r, _), PinText(q, _)) => r == q
    case _ => false
  }

  predicate OpsApart(a: seq<Op>, b: seq<Op>) {
    forall i, j :: 0 <= i < |a| && 0 <= j < |b| ==> !OpsClash(a[i], b[j])
  }

  ghost predicate LogApart(log: map<TxId, Commit>) {
    forall t, u :: t in log && u in log && t != u ==> OpsApart(log[t].ops, log[u].ops)
  }

  /** The pin is the one that a committed transaction leaves in the room. */
  ghost predicate PinFromLog(log: map<TxId, Commit>, room: Room, pin: Pin) {
    && pin.tx in log
    && LastPin(log[pin.tx].ops, room) == Some(pin.text)
    && pin.user == log[pin.tx].user
  }

  ghost predicate PinsFromLog(log: map<TxId, Commit>, pins: map<Room, Pin>) {
    forall room :: room in pins ==> PinFromLog(log, room, pins[room])
  }

  ghost predicate PinsOk(s: System, p: Addr) {
    && p in s.reps
    && PinsFromLog(s.log, s.reps[p].pins)
    && forall tx, room :: Reached(s, p, tx) && LastPin(s.log[tx].ops, room).Some? ==> room in s.reps[p].pins
  }

  ghost predicate SyncsOk(s: System) {
    forall e :: e in s.w.net && e.body.Data? && e.body.data.PinSync? ==> PinsFromLog(s.log, e.body.data.pins)
  }

  ghost predicate PinInv(s: System) {
    SyncsOk(s) && forall p :: p in s.reps ==> PinsOk(s, p)
  }

  lemma {:induction false} BookedIffOp(ops: seq<Op>, st: Station, start: int, end: int)
    ensures Bookings(ops, st, start, end) > 0 <==> Reserve(st, start, end) in ops
  {
    if ops != [] {
      assert ops == ops[..|ops| - 1] + [ops[|ops| - 1]];
      BookedIffOp(ops[..|ops| - 1], st, start, end);
    }
  }

  /** Two committed transactions that both pin a room are the same one. */
  lemma OnePinner(log: map<TxId, Commit>, t: TxId, u: TxId, room: Room)
    requires LogApart(log) && t in log && u in log
    requires LastPin(log[t].ops, room).Some? && LastPin(log[u].ops, room).Some?
    ensures t == u
  {
    var i := LastPinIsAnOp(log[t].ops, room);
    var j := LastPinIsAnOp(log[u].ops, room);
    assert OpsClash(log[t].ops[i], log[u].ops[j]);
  }

  /** Validation against tables that hold every commit separates the new transaction from all. */
  lemma ValidIsApart(s: System, loc: Where, p: Addr, tx: TxId, ops: seq<Op>, u: TxId)
    requires TxInv(s, loc) && PinInv(s) && p in s.reps && tx !in s.log
    requires Valid(s.reps[p], tx, ops) && Reached(s, p, u)
    ensures OpsApart(ops, s.log[u].ops) && OpsApart(s.log[u].ops, ops)
  {
    var r := s.reps[p];
    forall i, j | 0 <= i < |ops| && 0 <= j < |s.log[u].ops|
      ensures !OpsClash(ops[i], s.log[u].ops[j]) && !OpsClash(s.log[u].ops[j], ops[i])
    {
      var b := s.log[u].ops[j];
      assert !Clashes(r, tx, ops[i]);
      match b
      case Reserve(st, start, end) =>
        var x := Entry(start, end, s.log[u].user, u);
        BookedIffOp(s.log[u].ops, st, start, end);
        assert Count(r, st, x) == Due(s, p, st, x);
        assert x in Lookup(r.reservations, st);
      case PinText(room, _) =>
        LastPinExists(s.log[u].ops, j);
        assert PinsOk(s, p);
        assert room in r.pins && PinFromLog(s.log, room, r.pins[room]);
    }
  }

  lemma PostedSyncIsOk(s: System, loc: Where, t: TxStep)
    requires TxInv(s, loc) && PinInv(s) && TxEnabled(s, t)
    ensures SyncsOk(TxNext(s, t))
  {
    var v := TxNext(s, t);
    StepKeepsLog(s, loc, t);
    forall e | e in v.w.net && e.body.Data? && e.body.data.PinSync?
      ensures PinsFromLog(v.log, e.body.data.pins)
    {
      DataInFlight(s, t, e);
      if e in Posted(s, t) {
        assert PinsOk(s, t.p);
      }
      assert PinsFromLog(s.log, e.body.data.pins);
    }
  }

  /** Applying a logged transaction leaves only logged pins and adds the transaction's own. */
  lemma ApplyKeepsPins(log: map<TxId, Commit>, r: Replica, tx: TxId)
    requires tx in log && PinsFromLog(log, r.pins)
    ensures var a := ApplyOps(r, tx, log[tx].user, log[tx].ops);
            && PinsFromLog(log, a.pins)
            && (forall room :: room in r.pins ==> room in a.pins)
            && (forall room :: LastPin(log[tx].ops, room).Some? ==> room in a.pins)
  {
    var a := ApplyOps(r, tx, log[tx].user, log[tx].ops);
    forall room
      ensures room in a.pins ==> PinFromLog(log, room, a.pins[room])
      ensures room in r.pins || LastPin(log[tx].ops, room).Some? ==> room in a.pins
    {
      ApplyOpsPins(r, tx, log[tx].user, log[tx].ops, room);
    }
  }

  /** A step that applies no commit leaves the pins alone or merges a sync into them. */
  lemma OtherPins(s: System, t: TxStep, p: Addr)
    requires TxEnabled(s, t) && p in s.reps && !Applies(s, t, p)
    ensures p in TxNext(s, t).reps
    ensures var pins := TxNext(s, t).reps[p].pins;
            || pins == s.reps[p].pins
            || (t.Deliver? && t.e.body.data.PinSync? && pins == s.reps[p].pins + t.e.body.data.pins)
  {
  }

  lemma StepKeepsPins(s: System, loc: Where, t: TxStep, p: Addr)
    requires TxInv(s, loc) && PinInv(s) && TxEnabled(s, t) && p in s.reps
    ensures PinsOk(TxNext(s, t), p)
    ensures forall room :: room in s.reps[p].pins ==> room in TxNext(s, t).reps[p].pins
  {
    StepKeepsLog(s, loc, t);
    assert PinsOk(s, p);
    assert PinsFromLog(TxNext(s, t).log, s.reps[p].pins);
    if Applies(s, t, p) {
      AppliedPins(s, loc, t, p);
    } else {
      OtherPins(s, t, p);
      OthersGrowPast(s, loc, t, p);
    }
  }

  lemma AppliedPins(s: System, loc: Where, t: TxStep, p: Addr)
    requires TxInv(s, loc) && PinInv(s) && TxEnabled(s, t) && p in s.reps && Applies(s, t, p)
    requires PinsOk(s, p) && PinsFromLog(TxNext(s, t).log, s.reps[p].pins)
    ensures PinsOk(TxNext(s, t), p)
    ensures forall room :: room in s.reps[p].pins ==> room in TxNext(s, t).reps[p].pins
  {
    var v := TxNext(s, t);
    var r := s.reps[p];
    if t.CommitTx? {
      var tx := DecidedWasOpen(s, loc, t);
      ApplyKeepsPins(v.log, r, tx);
      forall u
        ensures Incoming(v.w.net, p, u) <==> Incoming(s.w.net, p, u)
      {
        CommitterReceivesNothing(s, loc, t, u);
      }
    } else {
      var d := t.e.body.data;
      assert CarriesHistory(t.e, s.log, s.aborted);
      assert IsCommitOf(t.e, d.tx) && Incoming(s.w.net, p, d.tx);
      assert ReplicaOk(s, p, r);
      assert d.tx !in r.txs;
      ApplyKeepsPins(v.log, r.(txs := v.reps[p].txs), d.tx);
      forall u
        ensures Incoming(v.w.net, p, u) <==> Incoming(s.w.net, p, u) && u != d.tx
      {
        DeliveredCommit(s, loc, t, u);
      }
    }
  }

  lemma StepKeepsPinInv(s: System, loc: Where, t: TxStep)
    requires TxInv(s, loc) && PinInv(s) && TxEnabled(s, t)
    ensures PinInv(TxNext(s, t))
  {
    PostedSyncIsOk(s, loc, t);
    StepKeepsPeers(s, loc, t);
    forall p | p in s.reps
      ensures PinsOk(TxNext(s, t), p)
    {
      StepKeepsPins(s, loc, t, p);
    }
  }

  lemma InitPinInv(s: System)
    requires InitSystem(s)
    ensures PinInv(s)
  {
    forall p | p in s.reps
      ensures PinsOk(s, p)
    {
      assert InitReplica(s.reps[p]);
    }
  }

  lemma {:induction false} PinRunInv(ss: seq<System>, ts: seq<TxStep>, k: nat)
    requires IsTxRun(ss, ts) && k < |ss|
    ensures PinInv(ss[k])
  {
    if k == 0 {
      InitPinInv(ss[0]);
    } else {
      PinRunInv(ss, ts, k - 1);
      assert TxStepAt(ss, ts, k - 1);
      var loc := TxRunInv(ss, ts, k - 1);
      StepKeepsPinInv(ss[k - 1], loc, ts[k - 1]);
    }
  }

  lemma CommitKeepsLogApart(s: System, loc: Where, t: TxStep)
    requires TxInv(s, loc) && PinInv(s) && LogApart(s.log) && TxEnabled(s, t) && AfterBarrier(s, t)
    ensures LogApart(TxNext(s, t).log)
  {
    if Commits(s, t) {
      var tx := DecidedWasOpen(s, loc, t);
      var v := TxNext(s, t);
      forall u | u in s.log
        ensures OpsApart(v.log[tx].ops, s.log[u].ops) && OpsApart(s.log[u].ops, v.log[tx].ops)
      {
        assert Reached(s, t.p, u);
        ValidIsApart(s, loc, t.p, tx, s.reps[t.p].txs[tx].ops, u);
      }
    }
  }

  lemma DisciplinedStepIsApart(ss: seq<System>, ts: seq<TxStep>, k: nat)
    requires IsTxRun(ss, ts) && Disciplined(ss, ts) && k < |ts| && LogApart(ss[k].log)
    ensures LogApart(ss[k + 1].log)
  {
    assert TxStepAt(ss, ts, k);
    var loc := TxRunInv(ss, ts, k);
    PinRunInv(ss, ts, k);
    DisciplineGivesBarrier(ss, ts, k);
    CommitKeepsLogApart(ss[k], loc, ts[k]);
  }

  lemma {:induction false} DisciplinedRunIsApart(ss: seq<System>, ts: seq<TxStep>, k: nat)
    requires IsTxRun(ss, ts) && Disciplined(ss, ts) && k < |ss|
    ensures LogApart(ss[k].log)
  {
    if k > 0 {
      DisciplinedRunIsApart(ss, ts, k - 1);
      DisciplinedStepIsApart(ss, ts, k - 1);
    }
  }
}
