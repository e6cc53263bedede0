/** What replication promises: agreement on outcomes, visibility, conflict-freedom, convergence. */
module ReplicationTheorems {
  import opened Types
  import opened CriticalSection
  import opened MutexInvariant
  import opened MutexTheorems
  import opened Transactions
  import opened Replication
  import opened ReplicationInvariant
  import opened CommitVisibility
  import opened PinInvariant
  import opened Outcomes

  /* ---- In every crash-free run, whatever the delivery order ---- */

  /** No transaction is ever committed at one peer and aborted at the same or another one. */
  lemma OutcomeAgreement(ss: seq<System>, ts: seq<TxStep>, k: nat, p: Addr, q: Addr, tx: TxId)
    requires IsTxRun(ss, ts) && k < |ss|
    ensures !(HasStatus(ss[k], p, tx, Committed) && HasStatus(ss[k], q, tx, Aborted))
  {
    var loc := TxRunInv(ss, ts, k);
    assert HasStatus(ss[k], p, tx, Committed) ==> RecordOk(ss[k], p, tx, Committed);
    assert HasStatus(ss[k], q, tx, Aborted) ==> RecordOk(ss[k], q, tx, Aborted);
  }

  /** Handling an abort removes no entry from any station's list, at any peer. */
  lemma AbortRemovesNothing(ss: seq<System>, ts: seq<TxStep>, k: nat, p: Addr, st: Station)
    requires IsTxRun(ss, ts) && TxStepAt(ss, ts, k) && ts[k].Deliver? && ts[k].e.body.data.TxAbort? && p in ss[k].reps
    ensures p in ss[k + 1].reps
    ensures Lookup(ss[k + 1].reps[p].reservations, st) == Lookup(ss[k].reps[p].reservations, st)
  {
    var loc := TxRunInv(ss, ts, k);
    var s, e := ss[k], ts[k].e;
    assert CarriesHistory(e, s.log, s.aborted);
    assert ReplicaOk(s, e.to, s.reps[e.to]);
    RollBackRemovesNothing(s, e.to, s.reps[e.to], e.body.data.tx, e.body.data.user);
  }

  /** A peer has a committed transaction in its tables exactly when no commit message for it is on
      its way to the peer; the tables hold each booking of such a transaction once and nothing else. */
  lemma AppliedIffArrived(ss: seq<System>, ts: seq<TxStep>, k: nat, p: Addr)
    requires IsTxRun(ss, ts) && k < |ss| && p in ss[k].reps
    ensures forall tx :: HasStatus(ss[k], p, tx, Committed) <==> Reached(ss[k], p, tx)
    ensures forall st, x :: Count(ss[k].reps[p], st, x) == Due(ss[k], p, st, x)
  {
    var loc := TxRunInv(ss, ts, k);
    assert ReplicaOk(ss[k], p, ss[k].reps[p]);
    forall tx
      ensures HasStatus(ss[k], p, tx, Committed) <==> Reached(ss[k], p, tx)
    {
      assert HasStatus(ss[k], p, tx, Committed) ==> RecordOk(ss[k], p, tx, Committed);
    }
  }

  /** Whoever counts a transaction as committed has recorded it with its operations, under the user at the
      peer that began it; nobody keeps operations of an aborted one but that peer. */
  lemma RecordsAreFull(ss: seq<System>, ts: seq<TxStep>, k: nat, p: Addr, tx: TxId)
    requires IsTxRun(ss, ts) && k < |ss| && p in ss[k].reps && tx in ss[k].reps[p].txs
    ensures tx in ss[k].owner && ss[k].owner[tx] in ss[k].reps
    ensures var s := ss[k];
            && (HasStatus(s, p, tx, Committed) ==>
                  tx in s.log && s.log[tx].user == UserOf(s, tx)
                  && s.reps[p].txs[tx] == TxRecord(UserOf(s, tx), s.log[tx].ops, Committed))
            && (HasStatus(s, p, tx, Aborted) && p != s.owner[tx] ==>
                  s.reps[p].txs[tx] == TxRecord(UserOf(s, tx), [], Aborted))
  {
    var loc := OutcomeRunInv(ss, ts, k);
    assert RecordIs(ss[k], p, tx, ss[k].reps[p].txs[tx]);
  }

  /** An abort is announced to everybody else, under that user's name: right after the step that aborts,
      the message is on its way to each of them. */
  lemma AbortReachesAll(ss: seq<System>, ts: seq<TxStep>, k: nat, q: Addr)
    requires IsTxRun(ss, ts) && TxStepAt(ss, ts, k) && Aborts(ss[k], ts[k]) && q in ss[k].reps && q != ts[k].p
    ensures var tx := ss[k].reps[ts[k].p].current.value;
            exists e :: e in ss[k + 1].w.net && e.from == ts[k].p && e.to == q && IsAbortOf(e, tx)
                        && e.body.data.user == ss[k].reps[ts[k].p].user
  {
    var loc := OutcomeRunInv(ss, ts, k);
    AbortIsAnnounced(ss[k], loc, ts[k], q);
  }

  /** The peer that began an aborted transaction knows of the abort; any other one knows of it exactly
      when no abort message for it is on its way there. */
  lemma AbortedIffTold(ss: seq<System>, ts: seq<TxStep>, k: nat, q: Addr, tx: TxId)
    requires IsTxRun(ss, ts) && k < |ss| && q in ss[k].reps && tx in ss[k].aborted
    ensures tx in ss[k].owner
    ensures HasStatus(ss[k], q, tx, Aborted) <==> q == ss[k].owner[tx] || !AbortIncoming(ss[k], q, tx)
  {
    var loc := OutcomeRunInv(ss, ts, k);
    assert AbortKnown(ss[k], q, tx);
  }

  /** The operations of the transaction that the command at p is about. */
  function Proposed(s: System, p: Addr): seq<Op>
    requires p in s.reps && Undecided(s.reps[p])
  {
    s.reps[p].txs[s.reps[p].current.value].ops
  }

  /** The step commits nothing, or what it commits clashes with no commit on its way to the committer. */
  ghost predicate ClearOfIncoming(s: System, t: TxStep)
    requires TxEnabled(s, t)
  {
    Commits(s, t) ==>
      forall u :: u in s.log && Incoming(s.w.net, t.p, u) ==> OpsApart(Proposed(s, t.p), s.log[u].ops)
  }

  /** A validated commit keeps clear of every commit its peer has received. So, whatever the delivery
      order, it keeps clear of all commits exactly when it does of those still on their way to it. */
  lemma ClearOfAllIffOfIncoming(ss: seq<System>, ts: seq<TxStep>, k: nat)
    requires IsTxRun(ss, ts) && TxStepAt(ss, ts, k) && Commits(ss[k], ts[k])
    ensures (forall u :: u in ss[k].log ==> OpsApart(Proposed(ss[k], ts[k].p), ss[k].log[u].ops)) <==>
            ClearOfIncoming(ss[k], ts[k])
  {
    var s, t := ss[k], ts[k];
    var loc := TxRunInv(ss, ts, k);
    PinRunInv(ss, ts, k);
    var tx := DecidedWasOpen(s, loc, t);
    forall u | u in s.log && !Incoming(s.w.net, t.p, u)
      ensures OpsApart(Proposed(s, t.p), s.log[u].ops)
    {
      ValidIsApart(s, loc, t.p, tx, Proposed(s, t.p), u);
    }
  }

  lemma ApartSwaps(a: seq<Op>, b: seq<Op>)
    requires OpsApart(a, b)
    ensures OpsApart(b, a)
  {
    forall i, j | 0 <= i < |b| && 0 <= j < |a|
      ensures !OpsClash(b[i], a[j])
    {
      assert !OpsClash(a[j], b[i]);
    }
  }

  /** A log with one more entry. */
  lemma ApartExtends(log: map<TxId, Commit>, tx: TxId, c: Commit)
    requires LogApart(log) && tx !in log
    ensures LogApart(log[tx := c]) <==> forall u :: u in log ==> OpsApart(c.ops, log[u].ops)
  {
    var more := log[tx := c];
    if forall u :: u in log ==> OpsApart(c.ops, log[u].ops) {
      forall t, u | t in more && u in more && t != u
        ensures OpsApart(more[t].ops, more[u].ops)
      {
        if u == tx {
          ApartSwaps(c.ops, log[t].ops);
        }
      }
    } else {
      var u :| u in log && !OpsApart(c.ops, log[u].ops);
      assert !OpsApart(more[tx].ops, more[u].ops);
    }
  }

  lemma ApartStep(ss: seq<System>, ts: seq<TxStep>, k: nat)
    requires IsTxRun(ss, ts) && TxStepAt(ss, ts, k) && LogApart(ss[k].log)
    ensures LogApart(ss[k + 1].log) <==> ClearOfIncoming(ss[k], ts[k])
  {
    if Commits(ss[k], ts[k]) {
      var loc := TxRunInv(ss, ts, k);
      var tx := DecidedWasOpen(ss[k], loc, ts[k]);
      ClearOfAllIffOfIncoming(ss, ts, k);
      ApartExtends(ss[k].log, tx, ss[k + 1].log[tx]);
    }
  }

  lemma LogOnlyGrows(ss: seq<System>, ts: seq<TxStep>, k: nat)
    requires IsTxRun(ss, ts) && k < |ts| && LogApart(ss[k + 1].log)
    ensures LogApart(ss[k].log)
  {
    assert TxStepAt(ss, ts, k);
    var loc := TxRunInv(ss, ts, k);
    StepKeepsLog(ss[k], loc, ts[k]);
    forall t, u | t in ss[k].log && u in ss[k].log && t != u
      ensures OpsApart(ss[k].log[t].ops, ss[k].log[u].ops)
    {
      assert OpsApart(ss[k + 1].log[t].ops, ss[k + 1].log[u].ops);
    }
  }

  /** Step m of the run was clear in this sense. */
  ghost predicate WasClear(ss: seq<System>, ts: seq<TxStep>, m: nat) {
    TxStepAt(ss, ts, m) && ClearOfIncoming(ss[m], ts[m])
  }

  lemma {:induction false} ApartMeansClear(ss: seq<System>, ts: seq<TxStep>, k: nat, m: nat)
    requires IsTxRun(ss, ts) && m < k < |ss| && LogApart(ss[k].log)
    ensures WasClear(ss, ts, m)
  {
    LogOnlyGrows(ss, ts, k - 1);
    if m < k - 1 {
      ApartMeansClear(ss, ts, k - 1, m);
    } else {
      assert TxStepAt(ss, ts, m);
      ApartStep(ss, ts, m);
    }
  }

  lemma {:induction false} ClearMeansApart(ss: seq<System>, ts: seq<TxStep>, k: nat)
    requires IsTxRun(ss, ts) && k < |ss| && forall m :: 0 <= m < k ==> WasClear(ss, ts, m)
    ensures LogApart(ss[k].log)
  {
    if k == 0 {
      assert ss[0].log == map[];
    } else {
      ClearMeansApart(ss, ts, k - 1);
      assert WasClear(ss, ts, k - 1);
      ApartStep(ss, ts, k - 1);
    }
  }

  /** All committed transactions keep clear of one another exactly when each of them was clear of the
      commits that were on their way to its committer at that moment. */
  lemma ApartIffEachWasClear(ss: seq<System>, ts: seq<TxStep>, k: nat)
    requires IsTxRun(ss, ts) && k < |ss|
    ensures LogApart(ss[k].log) <==> forall m :: 0 <= m < k ==> WasClear(ss, ts, m)
  {
    if LogApart(ss[k].log) {
      forall m | 0 <= m < k
        ensures WasClear(ss, ts, m)
      {
        ApartMeansClear(ss, ts, k, m);
      }
    } else if forall m :: 0 <= m < k ==> WasClear(ss, ts, m) {
      ClearMeansApart(ss, ts, k);
    }
  }

  /* ---- What a commit decides about ---- */

  /** The operations that p's user added, in order. */
  function Added(ts: seq<TxStep>, p: Addr): seq<Op> {
    if ts == [] then []
    else
      var t := ts[|ts| - 1];
      Added(ts[..|ts| - 1], p) + if t.AddTxOp? && t.p == p then [t.op] else []
  }

  lemma OpenStep(s: System, t: TxStep, p: Addr, id: TxId, ops: seq<Op>)
    requires TxEnabled(s, t) && p in s.reps && IsOpen(s.reps[p], id, ops)
    requires Undecided(TxNext(s, t).reps[p])
    ensures IsOpen(TxNext(s, t).reps[p], id, ops + Added([t], p))
  {
    assert [t][..0] == [];
    assert Added([t], p) == if t.AddTxOp? && t.p == p then [t.op] else [];
    assert ops + [] == ops;
  }

  lemma OpensOnlyByBegin(s: System, t: TxStep, p: Addr)
    requires TxEnabled(s, t) && p in s.reps && !Undecided(s.reps[p]) && Undecided(TxNext(s, t).reps[p])
    ensures t.BeginTx? && t.p == p && s.reps[p].current.None? && IsOpen(TxNext(s, t).reps[p], t.id, [])
  {
  }

  /** The step opens the transaction. */
  predicate Opens(s: System, t: TxStep, p: Addr, id: TxId) {
    t == BeginTx(p, id) && p in s.reps && s.reps[p].current.None?
  }

  lemma AddedGrows(ts: seq<TxStep>, b: nat, k: nat, p: Addr)
    requires b < k < |ts|
    ensures Added(ts[b + 1..k + 1], p) == Added(ts[b + 1..k], p) + Added([ts[k]], p)
  {
    assert ts[b + 1..k + 1][..k - b - 1] == ts[b + 1..k];
    assert [ts[k]][..0] == [];
  }

  lemma UndecidedWasOpened(ss: seq<System>, ts: seq<TxStep>, k: nat, p: Addr) returns (b: nat)
    requires IsTxRun(ss, ts) && k < |ss| && p in ss[k].reps && Undecided(ss[k].reps[p])
    ensures b < k && Opens(ss[b], ts[b], p, ss[k].reps[p].current.value)
    ensures IsOpen(ss[k].reps[p], ss[k].reps[p].current.value, Added(ts[b + 1..k], p))
  {
    WasAPeer(ss, ts, k, p);
    assert TxStepAt(ss, ts, k - 1);
    var s, t := ss[k - 1], ts[k - 1];
    if Undecided(s.reps[p]) {
      b := UndecidedWasOpened(ss, ts, k - 1, p);
      AddedGrows(ts, b, k - 1, p);
      OpenStep(s, t, p, s.reps[p].current.value, Added(ts[b + 1..k - 1], p));
    } else {
      OpensOnlyByBegin(s, t, p);
      b := k - 1;
      assert ts[k..k] == [];
    }
  }

  lemma KeepsPeers(ss: seq<System>, ts: seq<TxStep>, k: nat)
    requires IsTxRun(ss, ts) && k < |ts|
    ensures ss[k + 1].reps.Keys == ss[k].reps.Keys
  {
    assert TxStepAt(ss, ts, k);
    var loc := TxRunInv(ss, ts, k);
    StepKeepsPeers(ss[k], loc, ts[k]);
  }

  lemma WasAPeer(ss: seq<System>, ts: seq<TxStep>, k: nat, p: Addr)
    requires IsTxRun(ss, ts) && k < |ss| && p in ss[k].reps && Undecided(ss[k].reps[p])
    ensures k > 0 && p in ss[k - 1].reps
  {
    if k > 0 {
      KeepsPeers(ss, ts, k - 1);
    }
  }

  /** Whatever has arrived at p since its user opened the transaction: the commit applies exactly the
      operations added since then, in order, or none of them. Which of the two, validation against
      the tables of this very moment says. */
  lemma CommandIsAllOrNothing(ss: seq<System>, ts: seq<TxStep>, k: nat) returns (b: nat)
    requires IsTxRun(ss, ts) && TxStepAt(ss, ts, k) && ts[k].CommitTx? && Undecided(ss[k].reps[ts[k].p])
    ensures var p := ts[k].p;
            var r := ss[k].reps[p];
            && b < k && Opens(ss[b], ts[b], p, r.current.value)
            && p in ss[k + 1].reps
            && AllOrNothing(r, r.current.value, Added(ts[b + 1..k], p), Finish(ss[k + 1].reps[p]))
  {
    var p := ts[k].p;
    b := UndecidedWasOpened(ss, ts, k, p);
    CommitOfOpen(ss[k].reps[p], ss[k].reps[p].current.value, Added(ts[b + 1..k], p));
  }

  /** Handling a pin sync leaves the receiver with every pin of the sync. */
  lemma SyncCatchesUp(ss: seq<System>, ts: seq<TxStep>, k: nat, room: Room)
    requires IsTxRun(ss, ts) && TxStepAt(ss, ts, k) && ts[k].Deliver? && ts[k].e.body.data.PinSync?
    requires room in ts[k].e.body.data.pins
    ensures var e := ts[k].e;
            && e.to in ss[k + 1].reps && room in ss[k + 1].reps[e.to].pins
            && ss[k + 1].reps[e.to].pins[room] == e.body.data.pins[room]
  {
    var loc := TxRunInv(ss, ts, k);
    assert ts[k].e.id !in ss[k].w.nodes[ts[k].e.to].seen;
  }

  /** Closing a decided transaction, or aborting an undecided one, lets the user open the next at once. */
  lemma NextCommandOpens(ss: seq<System>, ts: seq<TxStep>, k: nat, p: Addr, id: TxId)
    requires IsTxRun(ss, ts) && TxStepAt(ss, ts, k) && TxStepAt(ss, ts, k + 1) && p in ss[k].reps
    requires ts[k] == FinishTx(p) || (ts[k] == AbortTx(p) && Undecided(ss[k].reps[p]))
    requires ts[k + 1] == BeginTx(p, id)
    ensures p in ss[k + 2].reps && IsOpen(ss[k + 2].reps[p], id, [])
  {
    KeepsPeers(ss, ts, k);
    assert ss[k + 1].reps[p].current.None?;
  }

  lemma OldIdIsOld(s: System, loc: Where, t: TxStep, e: Envelope)
    requires TxInv(s, loc) && TxEnabled(s, t) && e in TxNext(s, t).w.net && e.id < s.w.next
    ensures e in s.w.net
  {
    if Below(s, t).Some? {
      SentIsOk(s.w, Below(s, t).value);
    }
  }

  lemma NewIdIsPosted(s: System, loc: Where, p: Addr, q: Addr, e: Envelope)
    requires TxInv(s, loc) && TxEnabled(s, SyncPins(p, q)) && e in TxNext(s, SyncPins(p, q)).w.net && e.id == s.w.next
    ensures e.to == q && e.body.Data? && e.body.data == PinSync(s.reps[p].pins)
  {
    assert forall f :: f in s.w.net ==> f.id < s.w.next;
  }

  lemma IdStep(ss: seq<System>, ts: seq<TxStep>, k: nat, e: Envelope)
    requires IsTxRun(ss, ts) && k < |ts|
    ensures ss[k].w.next <= ss[k + 1].w.next
    ensures e in ss[k + 1].w.net && e.id < ss[k].w.next ==> e in ss[k].w.net
  {
    assert TxStepAt(ss, ts, k);
    if e in ss[k + 1].w.net && e.id < ss[k].w.next {
      var loc := TxRunInv(ss, ts, k);
      OldIdIsOld(ss[k], loc, ts[k], e);
    }
  }

  /** A message with an id of before step k is one of before step k. */
  lemma {:induction false} OldIdsAreOld(ss: seq<System>, ts: seq<TxStep>, k: nat, m: nat, e: Envelope)
    requires IsTxRun(ss, ts) && k <= m < |ss|
    ensures ss[k].w.next <= ss[m].w.next
    ensures e in ss[m].w.net && e.id < ss[k].w.next ==> e in ss[k].w.net
  {
    if k < m {
      IdStep(ss, ts, m - 1, e);
      OldIdsAreOld(ss, ts, k, m - 1, e);
    }
  }

  lemma SyncKeepsId(ss: seq<System>, ts: seq<TxStep>, k: nat, m: nat, e: Envelope)
    requires IsTxRun(ss, ts) && TxStepAt(ss, ts, k) && ts[k].SyncPins? && k < m < |ss|
    requires e in ss[m].w.net && e.id == ss[k].w.next
    ensures e.to == ts[k].q && e.body.Data? && e.body.data == PinSync(ss[k].reps[ts[k].p].pins)
  {
    OldIdsAreOld(ss, ts, k + 1, m, e);
    var loc := TxRunInv(ss, ts, k);
    NewIdIsPosted(ss[k], loc, ts[k].p, ts[k].q, e);
  }

  /** A sync sent in step k and handled in step m leaves its receiver with every pin that its sender had
      when it sent it. */
  lemma SyncBringsAll(ss: seq<System>, ts: seq<TxStep>, k: nat, m: nat, room: Room)
    requires IsTxRun(ss, ts) && TxStepAt(ss, ts, k) && ts[k].SyncPins? && room in ss[k].reps[ts[k].p].pins
    requires k < m && TxStepAt(ss, ts, m) && ts[m].Deliver? && ts[m].e.id == ss[k].w.next
    ensures var q := ts[k].q;
            && q in ss[m + 1].reps && room in ss[m + 1].reps[q].pins
            && ss[m + 1].reps[q].pins[room] == ss[k].reps[ts[k].p].pins[room]
  {
    SyncKeepsId(ss, ts, k, m, ts[m].e);
    SyncCatchesUp(ss, ts, m, room);
  }

  /** And it is sent. */
  lemma SyncIsSent(ss: seq<System>, ts: seq<TxStep>, k: nat)
    requires IsTxRun(ss, ts) && TxStepAt(ss, ts, k) && ts[k].SyncPins?
    ensures exists e :: e in ss[k + 1].w.net && e.id == ss[k].w.next && e.from == ts[k].p && e.to == ts[k].q
  {
    var b := Below(ss[k], ts[k]).value;
    var e := Env(ss[k].w.next, ts[k].p, ts[k].q, Data(ss[k].w.nodes[ts[k].p].clock + 1, b.data));
    assert e in ss[k + 1].w.net;
  }

  /* ---- In every disciplined run ---- */

  /** The tables hold the transaction: its record, each of its bookings as often as it was asked for,
      and its pins. */
  ghost predicate HasInTables(s: System, p: Addr, tx: TxId) {
    && tx in s.log && p in s.reps && tx in s.reps[p].txs
    && s.reps[p].txs[tx] == TxRecord(s.log[tx].user, s.log[tx].ops, Committed)
    && (forall st, x: Entry :: x.tx == tx ==>
          Count(s.reps[p], st, x) == if x.user == s.log[tx].user then Bookings(s.log[tx].ops, st, x.start, x.end) else 0)
    && (forall room :: LastPin(s.log[tx].ops, room).Some? ==>
          room in s.reps[p].pins && s.reps[p].pins[room] == Pin(LastPin(s.log[tx].ops, room).value, s.log[tx].user, tx))
  }

  lemma ReachedIsInTables(ss: seq<System>, ts: seq<TxStep>, k: nat, p: Addr, tx: TxId)
    requires IsTxRun(ss, ts) && Disciplined(ss, ts) && k < |ss| && p in ss[k].reps && Reached(ss[k], p, tx)
    ensures HasInTables(ss[k], p, tx)
  {
    var s := ss[k];
    AppliedIffArrived(ss, ts, k, p);
    assert HasStatus(s, p, tx, Committed);
    RecordsAreFull(ss, ts, k, p, tx);
    PinRunInv(ss, ts, k);
    DisciplinedRunIsApart(ss, ts, k);
    forall st, x: Entry | x.tx == tx
      ensures Count(s.reps[p], st, x) ==
              if x.user == s.log[tx].user then Bookings(s.log[tx].ops, st, x.start, x.end) else 0
    {
      assert Count(s.reps[p], st, x) == Due(s, p, st, x);
    }
    forall room | LastPin(s.log[tx].ops, room).Some?
      ensures room in s.reps[p].pins && s.reps[p].pins[room] == Pin(LastPin(s.log[tx].ops, room).value, s.log[tx].user, tx)
    {
      assert PinsOk(s, p);
      assert PinFromLog(s.log, room, s.reps[p].pins[room]);
      OnePinner(s.log, tx, s.reps[p].pins[room].tx, room);
    }
  }

  /** A committing peer already has every transaction committed before, by anyone, in its tables. */
  lemma CommitSeesAll(ss: seq<System>, ts: seq<TxStep>, k: nat, tx: TxId)
    requires IsTxRun(ss, ts) && Disciplined(ss, ts) && TxStepAt(ss, ts, k) && ts[k].CommitTx? && tx in ss[k].log
    ensures HasInTables(ss[k], ts[k].p, tx)
  {
    DisciplineGivesBarrier(ss, ts, k);
    assert Reached(ss[k], ts[k].p, tx);
    ReachedIsInTables(ss, ts, k, ts[k].p, tx);
  }

  lemma EntryIsLogged(s: System, loc: Where, p: Addr, st: Station, x: Entry)
    requires TxInv(s, loc) && p in s.reps && x in Lookup(s.reps[p].reservations, st)
    ensures x.tx in s.log && Reserve(st, x.start, x.end) in s.log[x.tx].ops
  {
    assert x in multiset(Lookup(s.reps[p].reservations, st));
    assert ReplicaOk(s, p, s.reps[p]);
    assert Count(s.reps[p], st, x) == Due(s, p, st, x);
    BookedIffOp(s.log[x.tx].ops, st, x.start, x.end);
  }

  /** Reservations of one station by different transactions never overlap, within one replica or
      between two. */
  lemma ConflictFree(ss: seq<System>, ts: seq<TxStep>, k: nat, p: Addr, q: Addr, st: Station, x: Entry, y: Entry)
    requires IsTxRun(ss, ts) && Disciplined(ss, ts) && k < |ss| && p in ss[k].reps && q in ss[k].reps
    requires x in Lookup(ss[k].reps[p].reservations, st) && y in Lookup(ss[k].reps[q].reservations, st)
    requires x.tx != y.tx
    ensures !TimesOverlap(x.start, x.end, y.start, y.end)
  {
    var s := ss[k];
    var loc := TxRunInv(ss, ts, k);
    DisciplinedRunIsApart(ss, ts, k);
    EntryIsLogged(s, loc, p, st, x);
    EntryIsLogged(s, loc, q, st, y);
    var i :| 0 <= i < |s.log[x.tx].ops| && s.log[x.tx].ops[i] == Reserve(st, x.start, x.end);
    var j :| 0 <= j < |s.log[y.tx].ops| && s.log[y.tx].ops[j] == Reserve(st, y.start, y.end);
    assert !OpsClash(s.log[x.tx].ops[i], s.log[y.tx].ops[j]);
  }

  lemma ClashIsLogged(s: System, loc: Where, p: Addr, tx: TxId, op: Op) returns (u: TxId)
    requires TxInv(s, loc) && PinInv(s) && p in s.reps && tx !in s.log && Clashes(s.reps[p], tx, op)
    ensures u in s.log && exists j :: 0 <= j < |s.log[u].ops| && OpsClash(op, s.log[u].ops[j])
  {
    var r := s.reps[p];
    match op
    case Reserve(st, start, end) =>
      var k :| 0 <= k < |Lookup(r.reservations, st)| &&
               var x := Lookup(r.reservations, st)[k]; TimesOverlap(start, end, x.start, x.end) && x.tx != tx;
      var x := Lookup(r.reservations, st)[k];
      EntryIsLogged(s, loc, p, st, x);
      u := x.tx;
      var j :| 0 <= j < |s.log[u].ops| && s.log[u].ops[j] == Reserve(st, x.start, x.end);
      assert OpsClash(op, s.log[u].ops[j]);
    case PinText(room, _) =>
      assert PinsOk(s, p);
      assert PinFromLog(s.log, room, r.pins[room]);
      u := r.pins[room].tx;
      var j := LastPinIsAnOp(s.log[u].ops, room);
      assert OpsClash(op, s.log[u].ops[j]);
  }

  /** Validation refuses nothing else: a transaction commits exactly when it keeps clear of every
      transaction committed before, by anyone. */
  lemma CommitsIffClear(ss: seq<System>, ts: seq<TxStep>, k: nat)
    requires IsTxRun(ss, ts) && Disciplined(ss, ts) && TxStepAt(ss, ts, k) && ts[k].CommitTx? && Undecided(ss[k].reps[ts[k].p])
    ensures Commits(ss[k], ts[k]) <==>
            forall u :: u in ss[k].log ==> OpsApart(Proposed(ss[k], ts[k].p), ss[k].log[u].ops)
  {
    var s, t := ss[k], ts[k];
    var ops := Proposed(s, t.p);
    var loc := TxRunInv(ss, ts, k);
    PinRunInv(ss, ts, k);
    var tx := DecidedWasOpen(s, loc, t);
    if Commits(s, t) {
      DisciplineGivesBarrier(ss, ts, k);
      ClearOfAllIffOfIncoming(ss, ts, k);
    } else {
      var i :| 0 <= i < |ops| && Clashes(s.reps[t.p], tx, ops[i]);
      var u := ClashIsLogged(s, loc, t.p, tx, ops[i]);
      var j :| 0 <= j < |s.log[u].ops| && OpsClash(ops[i], s.log[u].ops[j]);
      assert !OpsApart(ops, s.log[u].ops);
    }
  }

  /** No two transactions ever commit a pin to the same room. */
  lemma OnePinPerRoom(ss: seq<System>, ts: seq<TxStep>, k: nat, t: TxId, u: TxId, room: Room)
    requires IsTxRun(ss, ts) && Disciplined(ss, ts) && k < |ss| && t in ss[k].log && u in ss[k].log
    requires LastPin(ss[k].log[t].ops, room).Some? && LastPin(ss[k].log[u].ops, room).Some?
    ensures t == u
  {
    DisciplinedRunIsApart(ss, ts, k);
    OnePinner(ss[k].log, t, u, room);
  }

  ghost predicate NothingIncoming(s: System) {
    forall p, tx :: p in s.reps ==> !Incoming(s.w.net, p, tx)
  }

  /** Once no commit is on its way, all replicas hold the same reservations, in any delivery order. */
  lemma ReservationsConverge(ss: seq<System>, ts: seq<TxStep>, k: nat, p: Addr, q: Addr, st: Station)
    requires IsTxRun(ss, ts) && k < |ss| && NothingIncoming(ss[k]) && p in ss[k].reps && q in ss[k].reps
    ensures multiset(Lookup(ss[k].reps[p].reservations, st)) == multiset(Lookup(ss[k].reps[q].reservations, st))
  {
    AppliedIffArrived(ss, ts, k, p);
    AppliedIffArrived(ss, ts, k, q);
    var a, b := multiset(Lookup(ss[k].reps[p].reservations, st)), multiset(Lookup(ss[k].reps[q].reservations, st));
    forall x: Entry
      ensures a[x] == b[x]
    {
      assert Count(ss[k].reps[p], st, x) == Due(ss[k], p, st, x);
      assert Count(ss[k].reps[q], st, x) == Due(ss[k], q, st, x);
    }
  }

  lemma SamePinBothSides(s: System, p: Addr, q: Addr, room: Room)
    requires PinInv(s) && LogApart(s.log) && p in s.reps && q in s.reps && room in s.reps[p].pins
    requires Reached(s, q, s.reps[p].pins[room].tx) || room in s.reps[q].pins
    ensures room in s.reps[q].pins && s.reps[q].pins[room] == s.reps[p].pins[room]
  {
    assert PinsOk(s, p) && PinsOk(s, q);
    var a := s.reps[p].pins[room];
    assert PinFromLog(s.log, room, a);
    assert room in s.reps[q].pins;
    var b := s.reps[q].pins[room];
    assert PinFromLog(s.log, room, b);
    OnePinner(s.log, a.tx, b.tx, room);
  }

  /** Once no commit is on its way, all replicas hold the same pins. */
  lemma PinsConverge(ss: seq<System>, ts: seq<TxStep>, k: nat, p: Addr, q: Addr)
    requires IsTxRun(ss, ts) && Disciplined(ss, ts) && k < |ss| && NothingIncoming(ss[k]) && p in ss[k].reps && q in ss[k].reps
    ensures ss[k].reps[p].pins == ss[k].reps[q].pins
  {
    var s := ss[k];
    PinRunInv(ss, ts, k);
    DisciplinedRunIsApart(ss, ts, k);
    forall room
      ensures room in s.reps[p].pins ==> room in s.reps[q].pins && s.reps[q].pins[room] == s.reps[p].pins[room]
      ensures room in s.reps[q].pins ==> room in s.reps[p].pins
    {
      assert PinsOk(s, p) && PinsOk(s, q);
      if room in s.reps[p].pins {
        assert PinFromLog(s.log, room, s.reps[p].pins[room]);
        SamePinBothSides(s, p, q, room);
      } else if room in s.reps[q].pins {
        assert PinFromLog(s.log, room, s.reps[q].pins[room]);
        SamePinBothSides(s, q, p, room);
      }
    }
  }

  lemma StepKeepsPinValue(s: System, loc: Where, t: TxStep, v: System, p: Addr, room: Room)
    requires TxInv(s, loc) && PinInv(s) && TxEnabled(s, t) && v == TxNext(s, t) && p in s.reps && room in s.reps[p].pins
    requires LogApart(v.log)
    ensures p in v.reps && room in v.reps[p].pins && v.reps[p].pins[room] == s.reps[p].pins[room]
  {
    StepKeepsPins(s, loc, t, p);
    StepKeepsLog(s, loc, t);
    assert PinsOk(s, p) && PinsOk(v, p);
    var a, b := s.reps[p].pins[room], v.reps[p].pins[room];
    assert PinFromLog(s.log, room, a) && PinFromLog(v.log, room, b);
    OnePinner(v.log, a.tx, b.tx, room);
  }

  lemma PinStays(ss: seq<System>, ts: seq<TxStep>, k: nat, p: Addr, room: Room)
    requires IsTxRun(ss, ts) && Disciplined(ss, ts) && k < |ts| && p in ss[k].reps && room in ss[k].reps[p].pins
    ensures p in ss[k + 1].reps && room in ss[k + 1].reps[p].pins && ss[k + 1].reps[p].pins[room] == ss[k].reps[p].pins[room]
  {
    var s, v := ss[k], ss[k + 1];
    DisciplinedRunIsApart(ss, ts, k + 1);
    assert LogApart(v.log);
    var loc := TxRunInv(ss, ts, k);
    PinRunInv(ss, ts, k);
    assert TxStepAt(ss, ts, k);
    StepKeepsPinValue(s, loc, ts[k], v, p, room);
  }

  /** A pin, once set at a replica, keeps its text, user and transaction for the rest of the run. */
  lemma {:induction false} PinWriteOnce(ss: seq<System>, ts: seq<TxStep>, k: nat, m: nat, p: Addr, room: Room)
    requires IsTxRun(ss, ts) && Disciplined(ss, ts) && k <= m < |ss| && p in ss[k].reps && room in ss[k].reps[p].pins
    ensures p in ss[m].reps && room in ss[m].reps[p].pins
    ensures ss[m].reps[p].pins[room] == ss[k].reps[p].pins[room]
  {
    if k < m {
      PinWriteOnce(ss, ts, k, m - 1, p, room);
      PinStays(ss, ts, m - 1, p, room);
    }
  }

  /* ---- Commits follow the Lamport order of the sections they are made in ---- */

  ghost predicate CommitsArePast(s: System) {
    forall tx :: tx in s.log ==> Past(s.w, s.log[tx].prio)
  }

  lemma {:induction false} RunKeepsCommitsPast(ss: seq<System>, ts: seq<TxStep>, k: nat)
    requires IsTxRun(ss, ts) && k < |ss|
    ensures CommitsArePast(ss[k])
  {
    if k > 0 {
      RunKeepsCommitsPast(ss, ts, k - 1);
      StepKeepsCommitsPast(ss, ts, k - 1);
    }
  }

  lemma StepKeepsCommitsPast(ss: seq<System>, ts: seq<TxStep>, k: nat)
    requires IsTxRun(ss, ts) && TxStepAt(ss, ts, k) && CommitsArePast(ss[k])
    ensures CommitsArePast(ss[k + 1])
  {
    var loc := TxRunInv(ss, ts, k);
    var s, t, v := ss[k], ts[k], ss[k + 1];
    if Commits(s, t) {
      EntryIsPast(s.w, loc, t.p);
    }
    forall tx | tx in v.log
      ensures Past(v.w, v.log[tx].prio)
    {
      assert Past(s.w, v.log[tx].prio);
      if Below(s, t).Some? {
        StepKeepsPast(s.w, loc, Below(s, t).value, v.log[tx].prio);
      }
    }
  }

  /** Every earlier commit was made in this very section or in one of strictly smaller priority. */
  lemma CommitOrder(ss: seq<System>, ts: seq<TxStep>, k: nat, tx: TxId)
    requires IsTxRun(ss, ts) && TxStepAt(ss, ts, k) && ts[k].CommitTx? && tx in ss[k].log
    ensures var here := Prio(ss[k].w.nodes[ts[k].p]); ss[k].log[tx].prio == here || Before(ss[k].log[tx].prio, here)
  {
    RunKeepsCommitsPast(ss, ts, k);
    assert Past(ss[k].w, ss[k].log[tx].prio);
  }
}
