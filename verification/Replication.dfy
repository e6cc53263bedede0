/** Replicated transactions on top of the critical section: states, steps and runs without crashes. */
module Replication {
  import opened Types
  import opened CriticalSection
  import opened MutexSystem
  import opened Transactions

  /** One committed transaction; `prio` is the priority of the critical section it was committed in. */
  datatype Commit = Commit(owner: Addr, user: string, ops: seq<Op>, prio: Priority)

  /** The last three fields record history: who began which transaction, and how it ended. A step
      reads them only to pick a fresh transaction id. */
  datatype System = System(
    w: World,
    reps: map<Addr, Replica>,
    owner: map<TxId, Addr>,
    log: map<TxId, Commit>,
    aborted: set<TxId>)

  datatype TxStep =
    | Protocol(s: Step)
    | BeginTx(p: Addr, id: TxId)
    | AddTxOp(p: Addr, op: Op)
    | CommitTx(p: Addr)
    | AbortTx(p: Addr)
    | FinishTx(p: Addr)
    | SyncPins(p: Addr, q: Addr)
    | Deliver(e: Envelope)

  predicate InitReplica(r: Replica) {
    r.reservations == map[] && r.pins == map[] && r.txs == map[] && r.current == None
  }

  predicate InitSystem(s: System) {
    && Init(s.w)
    && s.reps.Keys == s.w.nodes.Keys
    && (forall p :: p in s.reps ==> InitReplica(s.reps[p]))
    && s.owner == map[] && s.log == map[] && s.aborted == {}
  }

  predicate IsData(e: Envelope) {
    e.body.Data?
  }

  predicate TxEnabled(s: System, t: TxStep) {
    match t
    case Protocol(x) =>
      && Enabled(s.w, x)
      && !x.Send? && !x.Crash? && !x.Detect?
      && (x.Receive? ==> !IsData(x.e))
    case BeginTx(p, id) => p in s.reps && Live(s.w, p) && id !in s.owner
    case AddTxOp(p, _) => p in s.reps && Live(s.w, p)
    case CommitTx(p) => p in s.reps && Live(s.w, p) && s.w.nodes[p].phase == InCs && s.w.nodes[p].reqTs.Some? && s.reps[p].current.Some?
    case AbortTx(p) => p in s.reps && Live(s.w, p)
    case FinishTx(p) => p in s.reps && Live(s.w, p) && s.reps[p].current.Some? && !IsActive(s.reps[p], s.reps[p].current.value)
    case SyncPins(p, q) => p in s.reps && Live(s.w, p) && q in s.w.nodes[p].neighbors && s.reps[p].pins != map[]
    case Deliver(e) => e in s.w.net && Live(s.w, e.to) && e.to in s.reps && IsData(e)
  }

  /** The transaction the user's command is about, if it is still undecided. */
  predicate Undecided(r: Replica) {
    r.current.Some? && IsActive(r, r.current.value)
  }

  /** The step that sends the message, if there is one, to all neighbors. */
  function Broadcast(s: System, p: Addr, message: Option<Payload>): Option<Step>
    requires p in s.w.nodes
  {
    if message.Some? then Some(Send(p, s.w.nodes[p].neighbors, message.value)) else None
  }

  /** The step the protocol layer takes underneath, if any. */
  function Below(s: System, t: TxStep): (r: Option<Step>)
    requires TxEnabled(s, t)
    ensures r.Some? ==> Enabled(s.w, r.value)
  {
    match t
    case Protocol(x) => Some(x)
    case CommitTx(p) => Broadcast(s, p, CommitMessage(s.reps[p], s.reps[p].current.value))
    case AbortTx(p) => Broadcast(s, p, AbortMessage(s.reps[p]))
    case SyncPins(p, q) => Some(Send(p, {q}, PinSync(s.reps[p].pins)))
    case Deliver(e) => Some(Receive(e))
    case _ => None
  }

  function NextReplicas(s: System, t: TxStep): map<Addr, Replica>
    requires TxEnabled(s, t)
  {
    match t
    case BeginTx(p, id) => s.reps[p := Transactions.Begin(s.reps[p], id)]
    case AddTxOp(p, op) => s.reps[p := AddOp(s.reps[p], op)]
    case CommitTx(p) => s.reps[p := DoCommit(s.reps[p], s.reps[p].current.value)]
    case AbortTx(p) => s.reps[p := UserAbort(s.reps[p])]
    case FinishTx(p) => s.reps[p := Finish(s.reps[p])]
    case Deliver(e) => if e.id in s.w.nodes[e.to].seen then s.reps else s.reps[e.to := TakePayload(s.reps[e.to], e.body.data)]
    case _ => s.reps
  }

  /** The transaction commits in this step. */
  predicate Commits(s: System, t: TxStep)
    requires TxEnabled(s, t)
  {
    t.CommitTx? && Accepts(s.reps[t.p], s.reps[t.p].current.value)
  }

  predicate Aborts(s: System, t: TxStep)
    requires TxEnabled(s, t)
  {
    (t.CommitTx? || t.AbortTx?) && Undecided(s.reps[t.p]) && !Commits(s, t)
  }

  function NextLog(s: System, t: TxStep): map<TxId, Commit>
    requires TxEnabled(s, t)
  {
    if Commits(s, t) then
      var r := s.reps[t.p];
      s.log[r.current.value := Commit(t.p, r.txs[r.current.value].user, r.txs[r.current.value].ops, Prio(s.w.nodes[t.p]))]
    else s.log
  }

  function TxNext(s: System, t: TxStep): System
    requires TxEnabled(s, t)
  {
    System(
      if Below(s, t).Some? then Next(s.w, Below(s, t).value) else s.w,
      NextReplicas(s, t),
      if t.BeginTx? && s.reps[t.p].current.None? then s.owner[t.id := t.p] else s.owner,
      NextLog(s, t),
      if Aborts(s, t) then s.aborted + {s.reps[t.p].current.value} else s.aborted)
  }

  predicate TxStepAt(ss: seq<System>, ts: seq<TxStep>, k: nat) {
    k < |ts| && k + 1 < |ss| && TxEnabled(ss[k], ts[k]) && ss[k + 1] == TxNext(ss[k], ts[k])
  }

  predicate IsTxRun(ss: seq<System>, ts: seq<TxStep>) {
    |ss| == |ts| + 1 && InitSystem(ss[0]) && forall k :: 0 <= k < |ts| ==> TxStepAt(ss, ts, k)
  }

  /** A commit message for the transaction is on its way to p. */
  ghost predicate Incoming(net: set<Envelope>, p: Addr, tx: TxId) {
    exists e :: e in net && e.to == p && IsCommitOf(e, tx)
  }

  predicate IsCommitOf(e: Envelope, tx: TxId) {
    e.body.Data? && e.body.data.TxCommit? && e.body.data.tx == tx
  }

  /* ---- The two delivery disciplines ---- */

  predicate IsCommitMsg(e: Envelope) {
    e.body.Data? && e.body.data.TxCommit?
  }

  /** No reply is handled while a commit that its sender sent to the same peer before it is on its way. */
  ghost predicate InOrder(s: System, t: TxStep) {
    t.Protocol? && t.s.Receive? && t.s.e.body.CsReply? ==>
      forall f :: f in s.w.net && IsCommitMsg(f) && f.from == t.s.e.from && f.to == t.s.e.to ==> t.s.e.id < f.id
  }

  /** The wait before the commit has let every commit addressed to the committer arrive. */
  ghost predicate AfterBarrier(s: System, t: TxStep) {
    t.CommitTx? ==> forall tx :: !Incoming(s.w.net, t.p, tx)
  }

  ghost predicate InOrderAt(ss: seq<System>, ts: seq<TxStep>, k: nat) {
    k < |ts| && k < |ss| && InOrder(ss[k], ts[k])
  }

  ghost predicate BarrierAt(ss: seq<System>, ts: seq<TxStep>, k: nat) {
    k < |ts| && k < |ss| && AfterBarrier(ss[k], ts[k])
  }

  ghost predicate Disciplined(ss: seq<System>, ts: seq<TxStep>) {
    || (forall k :: 0 <= k < |ts| ==> InOrderAt(ss, ts, k))
    || (forall k :: 0 <= k < |ts| ==> BarrierAt(ss, ts, k))
  }
}
