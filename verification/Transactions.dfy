/** One replica's reservation, pin and transaction tables, and what each handler does to them. */
module Transactions {
  import opened Types

  datatype Entry = Entry(start: int, end: int, user: string, tx: TxId)

  datatype Status = Active | Committed | Aborted

  datatype TxRecord = TxRecord(user: string, ops: seq<Op>, status: Status)

  datatype Replica = Replica(
    user: string,
    reservations: map<Station, seq<Entry>>,
    pins: map<Room, Pin>,
    txs: map<TxId, TxRecord>,
    current: Option<TxId>)

  function Lookup(r: map<Station, seq<Entry>>, st: Station): seq<Entry> {
    if st in r then r[st] else []
  }

  predicate TimesOverlap(start1: int, end1: int, start2: int, end2: int) {
    !(end1 <= start2 || end2 <= start1)
  }

  /* ---- The user's side of a transaction ---- */

  function Begin(r: Replica, id: TxId): Replica {
    if r.current.Some? then r
    else r.(current := Some(id), txs := r.txs[id := TxRecord(r.user, [], Active)])
  }

  predicate IsActive(r: Replica, tx: TxId) {
    tx in r.txs && r.txs[tx].status == Active
  }

  function AddOp(r: Replica, op: Op): Replica {
    if r.current.None? || !IsActive(r, r.current.value) then r
    else
      var t := r.txs[r.current.value];
      r.(txs := r.txs[r.current.value := t.(ops := t.ops + [op])])
  }

  function SetStatus(r: Replica, tx: TxId, status: Status): Replica
    requires tx in r.txs
  {
    r.(txs := r.txs[tx := r.txs[tx].(status := status)])
  }

  /* ---- Validation ---- */

  predicate Clashes(r: Replica, tx: TxId, op: Op) {
    match op
    case Reserve(st, start, end) =>
      exists k :: 0 <= k < |Lookup(r.reservations, st)| &&
                  var x := Lookup(r.reservations, st)[k];
                  TimesOverlap(start, end, x.start, x.end) && x.tx != tx
    case PinText(room, _) => room in r.pins && r.pins[room].tx != tx
  }

  predicate Valid(r: Replica, tx: TxId, ops: seq<Op>) {
    forall k :: 0 <= k < |ops| ==> !Clashes(r, tx, ops[k])
  }

  /* ---- Application and roll-back ---- */

  function ApplyOp(r: Replica, tx: TxId, user: string, op: Op): Replica {
    match op
    case Reserve(st, start, end) =>
      r.(reservations := r.reservations[st := Lookup(r.reservations, st) + [Entry(start, end, user, tx)]])
    case PinText(room, text) =>
      r.(pins := r.pins[room := Pin(text, user, tx)])
  }

  function ApplyOps(r: Replica, tx: TxId, user: string, ops: seq<Op>): (a: Replica)
    ensures a.user == r.user && a.txs == r.txs && a.current == r.current
  {
    if ops == [] then r
    else ApplyOp(ApplyOps(r, tx, user, ops[..|ops| - 1]), tx, user, ops[|ops| - 1])
  }

  function Without(xs: seq<Entry>, tx: TxId): seq<Entry> {
    if xs == [] then []
    else
      var init := Without(xs[..|xs| - 1], tx);
      if xs[|xs| - 1].tx != tx then init + [xs[|xs| - 1]] else init
  }

  function RollBack(r: Replica, tx: TxId): Replica {
    r.(reservations := map st | st in r.reservations :: Without(r.reservations[st], tx))
  }

  /* ---- Commit and abort at the owner ---- */

  predicate Accepts(r: Replica, tx: TxId) {
    IsActive(r, tx) && Valid(r, tx, r.txs[tx].ops)
  }

  /** The body run inside the critical section. */
  function DoCommit(r: Replica, tx: TxId): Replica {
    if !IsActive(r, tx) then r
    else if !Valid(r, tx, r.txs[tx].ops) then SetStatus(r, tx, Aborted)
    else SetStatus(ApplyOps(r, tx, r.txs[tx].user, r.txs[tx].ops), tx, Committed)
  }

  function UserAbort(r: Replica): Replica {
    if r.current.None? || !IsActive(r, r.current.value) then r
    else SetStatus(r, r.current.value, Aborted).(current := None)
  }

  function Finish(r: Replica): Replica {
    r.(current := None)
  }

  /** What the body run inside the critical section has to announce. */
  function CommitMessage(r: Replica, tx: TxId): Option<Payload> {
    if !IsActive(r, tx) then None
    else if Valid(r, tx, r.txs[tx].ops) then Some(TxCommit(tx, r.txs[tx].user, r.txs[tx].ops))
    else Some(TxAbort(tx, r.txs[tx].user))
  }

  /** What a user's abort has to announce. */
  function AbortMessage(r: Replica): Option<Payload> {
    if r.current.Some? && IsActive(r, r.current.value) then Some(TxAbort(r.current.value, r.txs[r.current.value].user)) else None
  }

  /* ---- Messages from other replicas ---- */

  function TakeCommit(r: Replica, tx: TxId, user: string, ops: seq<Op>): Replica {
    var owner := if tx in r.txs then r.txs[tx].user else user;
    ApplyOps(r.(txs := r.txs[tx := TxRecord(owner, ops, Committed)]), tx, owner, ops)
  }

  function TakeAbort(r: Replica, tx: TxId, user: string): Replica {
    var t := if tx in r.txs then r.txs[tx].(status := Aborted) else TxRecord(user, [], Aborted);
    RollBack(r.(txs := r.txs[tx := t]), tx)
  }

  function TakePins(r: Replica, pins: map<Room, Pin>): Replica {
    r.(pins := r.pins + pins)
  }

  function TakePayload(r: Replica, data: Payload): Replica {
    match data
    case TxCommit(tx, user, ops) => TakeCommit(r, tx, user, ops)
    case TxAbort(tx, user) => TakeAbort(r, tx, user)
    case PinSync(pins) => TakePins(r, pins)
  }

  /* ---- What application and roll-back mean ---- */

  /** How many operations of the list book exactly this slot of the station. */
  function Bookings(ops: seq<Op>, st: Station, start: int, end: int): nat {
    if ops == [] then 0
    else Bookings(ops[..|ops| - 1], st, start, end) + (if ops[|ops| - 1] == Reserve(st, start, end) then 1 else 0)
  }

  /** The text the list leaves pinned in the room: that of its last pin there. */
  function LastPin(ops: seq<Op>, room: Room): Option<string> {
    if ops == [] then None
    else match ops[|ops| - 1]
      case PinText(r, text) => if r == room then Some(text) else LastPin(ops[..|ops| - 1], room)
      case Reserve(_, _, _) => LastPin(ops[..|ops| - 1], room)
  }

  lemma {:induction false} ApplyOpsBookings(r: Replica, tx: TxId, user: string, ops: seq<Op>, st: Station, x: Entry)
    ensures multiset(Lookup(ApplyOps(r, tx, user, ops).reservations, st))[x] ==
            multiset(Lookup(r.reservations, st))[x]
            + (if x.tx == tx && x.user == user then Bookings(ops, st, x.start, x.end) else 0)
  {
    if ops != [] {
      ApplyOpsBookings(r, tx, user, ops[..|ops| - 1], st, x);
    }
  }

  lemma {:induction false} ApplyOpsPins(r: Replica, tx: TxId, user: string, ops: seq<Op>, room: Room)
    ensures var a := ApplyOps(r, tx, user, ops);
            && (room in a.pins <==> room in r.pins || LastPin(ops, room).Some?)
            && (LastPin(ops, room).Some? ==> a.pins[room] == Pin(LastPin(ops, room).value, user, tx))
            && (LastPin(ops, room).None? && room in r.pins ==> a.pins[room] == r.pins[room])
  {
    if ops != [] {
      ApplyOpsPins(r, tx, user, ops[..|ops| - 1], room);
    }
  }

  /** Application adds one entry per booking and nothing else, and overwrites exactly the pinned rooms. */
  lemma ApplyOpsEffect(r: Replica, tx: TxId, user: string, ops: seq<Op>, st: Station, x: Entry, room: Room)
    ensures var a := ApplyOps(r, tx, user, ops);
            && multiset(Lookup(a.reservations, st))[x] ==
               multiset(Lookup(r.reservations, st))[x]
               + (if x.tx == tx && x.user == user then Bookings(ops, st, x.start, x.end) else 0)
            && (room in a.pins <==> room in r.pins || LastPin(ops, room).Some?)
            && (LastPin(ops, room).Some? ==> a.pins[room] == Pin(LastPin(ops, room).value, user, tx))
            && (LastPin(ops, room).None? && room in r.pins ==> a.pins[room] == r.pins[room])
  {
    ApplyOpsBookings(r, tx, user, ops, st, x);
    ApplyOpsPins(r, tx, user, ops, room);
  }

  /** The entries that the list books at the station, in its order. */
  function EntriesOf(ops: seq<Op>, st: Station, user: string, tx: TxId): seq<Entry> {
    if ops == [] then []
    else
      var op := ops[|ops| - 1];
      EntriesOf(ops[..|ops| - 1], st, user, tx)
      + if op.Reserve? && op.station == st then [Entry(op.start, op.end, user, tx)] else []
  }

  /** Each station's list grows at its end, by the booked entries in the order of the operations. */
  lemma {:induction false} ApplyOpsAppends(r: Replica, tx: TxId, user: string, ops: seq<Op>, st: Station)
    ensures Lookup(ApplyOps(r, tx, user, ops).reservations, st) == Lookup(r.reservations, st) + EntriesOf(ops, st, user, tx)
  {
    if ops == [] {
      assert Lookup(r.reservations, st) + [] == Lookup(r.reservations, st);
    } else {
      ApplyOpsAppends(r, tx, user, ops[..|ops| - 1], st);
      var before, op := Lookup(r.reservations, st) + EntriesOf(ops[..|ops| - 1], st, user, tx), ops[|ops| - 1];
      assert before + [] == before;
    }
  }

  lemma {:induction false} EntriesAreOwn(ops: seq<Op>, st: Station, user: string, tx: TxId)
    ensures forall x :: x in EntriesOf(ops, st, user, tx) ==> x.tx == tx
  {
    if ops != [] {
      EntriesAreOwn(ops[..|ops| - 1], st, user, tx);
    }
  }

  /** Validation compares a transaction with others only: what it has applied itself never counts against
      it, except that a room it has pinned is no longer anybody else's. */
  lemma OwnEntriesNeverClash(r: Replica, tx: TxId, user: string, ops: seq<Op>, op: Op)
    ensures Clashes(ApplyOps(r, tx, user, ops), tx, op) <==>
            Clashes(r, tx, op) && (op.PinText? ==> LastPin(ops, op.room).None?)
  {
    var a := ApplyOps(r, tx, user, ops);
    match op
    case Reserve(st, start, end) =>
      var before := Lookup(r.reservations, st);
      ApplyOpsAppends(r, tx, user, ops, st);
      EntriesAreOwn(ops, st, user, tx);
      assert forall k :: 0 <= k < |before| ==> Lookup(a.reservations, st)[k] == before[k];
      assert forall k :: |before| <= k < |Lookup(a.reservations, st)| ==>
               Lookup(a.reservations, st)[k] in EntriesOf(ops, st, user, tx);
    case PinText(room, _) => ApplyOpsPins(r, tx, user, ops, room);
  }

  lemma {:induction false} WithoutCounts(xs: seq<Entry>, tx: TxId, x: Entry)
    ensures multiset(Without(xs, tx))[x] == if x.tx == tx then 0 else multiset(xs)[x]
  {
    if xs != [] {
      assert xs == xs[..|xs| - 1] + [xs[|xs| - 1]];
      WithoutCounts(xs[..|xs| - 1], tx, x);
    }
  }

  lemma {:induction false} WithoutAbsent(xs: seq<Entry>, tx: TxId)
    requires forall x :: x in xs ==> x.tx != tx
    ensures Without(xs, tx) == xs
  {
    if xs != [] {
      assert xs == xs[..|xs| - 1] + [xs[|xs| - 1]];
      WithoutAbsent(xs[..|xs| - 1], tx);
    }
  }

  lemma WithoutAppend(xs: seq<Entry>, x: Entry, tx: TxId)
    ensures Without(xs + [x], tx) == if x.tx != tx then Without(xs, tx) + [x] else Without(xs, tx)
  {
    assert (xs + [x])[..|xs|] == xs;
  }

  /** A message about a known transaction leaves the user it is recorded under, and an abort its operations
      too; whatever the message adds, it adds under that user. */
  lemma KnownUserStays(r: Replica, data: Payload, tx: TxId, st: Station, x: Entry, room: Room)
    requires tx in r.txs && !data.PinSync?
    ensures var a := TakePayload(r, data);
            && tx in a.txs && a.txs[tx].user == r.txs[tx].user
            && (data.tx != tx ==> a.txs[tx] == r.txs[tx])
            && (data.TxAbort? ==> a.txs[tx].ops == r.txs[tx].ops)
            && (multiset(Lookup(a.reservations, st))[x] > multiset(Lookup(r.reservations, st))[x] ==>
                  x.tx == data.tx && (data.tx == tx ==> x.user == r.txs[tx].user))
            && (room in a.pins && data.tx == tx ==>
                  (room in r.pins && a.pins[room] == r.pins[room]) || a.pins[room].user == r.txs[tx].user)
  {
    match data
    case TxCommit(id, user, ops) =>
      var owner := if id in r.txs then r.txs[id].user else user;
      var b := r.(txs := r.txs[id := TxRecord(owner, ops, Committed)]);
      ApplyOpsBookings(b, id, owner, ops, st, x);
      ApplyOpsPins(b, id, owner, ops, room);
    case TxAbort(id, _) => WithoutCounts(Lookup(r.reservations, st), id, x);
  }

  predicate Absent(r: Replica, tx: TxId) {
    && (forall st, x :: st in r.reservations && x in r.reservations[st] ==> x.tx != tx)
    && (forall room :: room in r.pins ==> r.pins[room].tx != tx)
  }

  lemma {:induction false} RollBackAfterApply(r: Replica, tx: TxId, user: string, ops: seq<Op>, st: Station)
    ensures Without(Lookup(ApplyOps(r, tx, user, ops).reservations, st), tx) == Without(Lookup(r.reservations, st), tx)
  {
    if ops != [] {
      var b := ApplyOps(r, tx, user, ops[..|ops| - 1]);
      RollBackAfterApply(r, tx, user, ops[..|ops| - 1], st);
      if ops[|ops| - 1].Reserve? {
        var op := ops[|ops| - 1];
        WithoutAppend(Lookup(b.reservations, st), Entry(op.start, op.end, user, tx), tx);
      }
    }
  }

  /** Applying a new transaction and rolling it back restores every station's list in order. The
      handler does not restore pins, so the pins come back exactly when the operations pin nothing. */
  lemma ApplyThenRollBack(r: Replica, tx: TxId, user: string, ops: seq<Op>)
    requires Absent(r, tx)
    ensures var b := RollBack(ApplyOps(r, tx, user, ops), tx);
            && (forall st :: Lookup(b.reservations, st) == Lookup(r.reservations, st))
            && (b.pins == r.pins <==> forall k :: 0 <= k < |ops| ==> !ops[k].PinText?)
  {
    var a := ApplyOps(r, tx, user, ops);
    var b := RollBack(a, tx);
    forall st
      ensures Lookup(b.reservations, st) == Lookup(r.reservations, st)
    {
      RollBackAfterApply(r, tx, user, ops, st);
      WithoutAbsent(Lookup(r.reservations, st), tx);
    }
    forall room
      ensures room in a.pins <==> room in r.pins || LastPin(ops, room).Some?
      ensures LastPin(ops, room).Some? ==> a.pins[room] == Pin(LastPin(ops, room).value, user, tx)
      ensures LastPin(ops, room).None? && room in r.pins ==> a.pins[room] == r.pins[room]
    {
      ApplyOpsPins(r, tx, user, ops, room);
    }
    if k :| 0 <= k < |ops| && ops[k].PinText? {
      LastPinExists(ops, k);
      assert LastPin(ops, ops[k].room).Some?;
    } else {
      NoLastPin(ops);
      assert a.pins == r.pins;
    }
  }

  /** The abort handler rolls back: after a commit message for a transaction that was new, an abort message
      for it leaves every station's list as it was before both, in order. */
  lemma CommitThenAbort(r: Replica, tx: TxId, user: string, ops: seq<Op>, sender: string, st: Station)
    requires Absent(r, tx)
    ensures Lookup(TakeAbort(TakeCommit(r, tx, user, ops), tx, sender).reservations, st) == Lookup(r.reservations, st)
  {
    var owner := if tx in r.txs then r.txs[tx].user else user;
    var b := r.(txs := r.txs[tx := TxRecord(owner, ops, Committed)]);
    RollBackAfterApply(b, tx, owner, ops, st);
    WithoutAbsent(Lookup(r.reservations, st), tx);
  }

  lemma {:induction false} LastPinExists(ops: seq<Op>, k: nat)
    requires k < |ops| && ops[k].PinText?
    ensures LastPin(ops, ops[k].room).Some?
  {
    if k < |ops| - 1 {
      assert ops[..|ops| - 1][k] == ops[k];
      LastPinExists(ops[..|ops| - 1], k);
    }
  }

  lemma {:induction false} NoLastPin(ops: seq<Op>)
    requires forall k :: 0 <= k < |ops| ==> !ops[k].PinText?
    ensures forall room :: LastPin(ops, room) == None
  {
    if ops != [] {
      NoLastPin(ops[..|ops| - 1]);
    }
  }

  /* ---- Reading the pins while a transaction is being applied ---- */

  /** No room gets two different texts from the list. */
  predicate OneTextPerRoom(ops: seq<Op>) {
    forall i, j :: 0 <= i < |ops| && 0 <= j < |ops| && ops[i].PinText? && ops[j].PinText? && ops[i].room == ops[j].room ==>
      ops[i].text == ops[j].text
  }

  /** After the first k operations every pin of the transaction is the one it leaves in the end. */
  ghost predicate ShowsFinalPins(r: Replica, tx: TxId, user: string, ops: seq<Op>, k: nat)
    requires k <= |ops|
  {
    forall room :: LastPin(ops[..k], room).Some? ==>
      && room in ApplyOps(r, tx, user, ops[..k]).pins && room in ApplyOps(r, tx, user, ops).pins
      && ApplyOps(r, tx, user, ops[..k]).pins[room] == ApplyOps(r, tx, user, ops).pins[room]
  }

  lemma {:induction false} LastPinIsAnOp(ops: seq<Op>, room: Room) returns (k: nat)
    requires LastPin(ops, room).Some?
    ensures k < |ops| && ops[k] == PinText(room, LastPin(ops, room).value)
  {
    if ops[|ops| - 1].PinText? && ops[|ops| - 1].room == room {
      k := |ops| - 1;
    } else {
      k := LastPinIsAnOp(ops[..|ops| - 1], room);
    }
  }

  lemma LastPinOfPrefix(ops: seq<Op>, k: nat, room: Room)
    requires k <= |ops| && OneTextPerRoom(ops) && LastPin(ops[..k], room).Some?
    ensures LastPin(ops, room) == LastPin(ops[..k], room)
  {
    var i := LastPinIsAnOp(ops[..k], room);
    assert ops[i] == ops[..k][i];
    LastPinExists(ops, i);
    var j := LastPinIsAnOp(ops, room);
  }

  lemma FinalAtEachPin(r: Replica, tx: TxId, user: string, ops: seq<Op>, i: nat)
    requires i < |ops| && ops[i].PinText? && ShowsFinalPins(r, tx, user, ops, i + 1)
    ensures LastPin(ops, ops[i].room) == Some(ops[i].text)
  {
    var room := ops[i].room;
    assert ops[..i + 1][..i] == ops[..i];
    assert LastPin(ops[..i + 1], room) == Some(ops[i].text);
    LastPinExists(ops, i);
    ApplyOpsPins(r, tx, user, ops[..i + 1], room);
    ApplyOpsPins(r, tx, user, ops, room);
  }

  lemma FinalIfOneText(r: Replica, tx: TxId, user: string, ops: seq<Op>, k: nat)
    requires k <= |ops| && OneTextPerRoom(ops)
    ensures ShowsFinalPins(r, tx, user, ops, k)
  {
    forall room | LastPin(ops[..k], room).Some?
      ensures room in ApplyOps(r, tx, user, ops[..k]).pins && room in ApplyOps(r, tx, user, ops).pins
      ensures ApplyOps(r, tx, user, ops[..k]).pins[room] == ApplyOps(r, tx, user, ops).pins[room]
    {
      LastPinOfPrefix(ops, k, room);
      ApplyOpsPins(r, tx, user, ops[..k], room);
      ApplyOpsPins(r, tx, user, ops, room);
    }
  }

  lemma OneTextIfFinal(r: Replica, tx: TxId, user: string, ops: seq<Op>)
    requires forall k :: 0 <= k <= |ops| ==> ShowsFinalPins(r, tx, user, ops, k)
    ensures OneTextPerRoom(ops)
  {
    forall i, j | 0 <= i < |ops| && 0 <= j < |ops| && ops[i].PinText? && ops[j].PinText? && ops[i].room == ops[j].room
      ensures ops[i].text == ops[j].text
    {
      FinalAtEachPin(r, tx, user, ops, i);
      FinalAtEachPin(r, tx, user, ops, j);
    }
  }

  /** Who reads the pins without the lock, while a transaction is being applied, never sees one that the
      transaction will overwrite if and only if it gives no room two different texts. */
  lemma MidwayPinsAreFinal(r: Replica, tx: TxId, user: string, ops: seq<Op>)
    ensures (forall k :: 0 <= k <= |ops| ==> ShowsFinalPins(r, tx, user, ops, k)) <==> OneTextPerRoom(ops)
  {
    if OneTextPerRoom(ops) {
      forall k | 0 <= k <= |ops|
        ensures ShowsFinalPins(r, tx, user, ops, k)
      {
        FinalIfOneText(r, tx, user, ops, k);
      }
    } else if forall k :: 0 <= k <= |ops| ==> ShowsFinalPins(r, tx, user, ops, k) {
      OneTextIfFinal(r, tx, user, ops);
    }
  }

  /* ---- The end of a command ---- */

  /** The replica has an open transaction that holds the operations. */
  predicate IsOpen(r: Replica, id: TxId, ops: seq<Op>) {
    r.current == Some(id) && id in r.txs && r.txs[id] == TxRecord(r.user, ops, Active)
  }

  /** What the command leaves: all of its operations, or none. */
  predicate AllOrNothing(r: Replica, id: TxId, ops: seq<Op>, c: Replica) {
    var ok := Valid(r, id, ops);
    var a := if ok then ApplyOps(r, id, r.user, ops) else r;
    && c.reservations == a.reservations && c.pins == a.pins
    && c.current == None && c.user == r.user
    && c.txs == r.txs[id := TxRecord(r.user, ops, if ok then Committed else Aborted)]
  }

  /** An abort closes the transaction, so that the user can begin the next one at once. */
  lemma BeginAfterAbort(r: Replica, id: TxId)
    requires r.current.Some? && IsActive(r, r.current.value)
    ensures IsOpen(Begin(UserAbort(r), id), id, [])
  {
  }

  lemma CommitOfOpen(r: Replica, id: TxId, ops: seq<Op>)
    requires IsOpen(r, id, ops)
    ensures AllOrNothing(r, id, ops, Finish(DoCommit(r, id)))
  {
    assert Finish(DoCommit(r, id)).txs == r.txs[id := TxRecord(r.user, ops, if Valid(r, id, ops) then Committed else Aborted)];
  }

  predicate Within(t: int, start: int, end: int) {
    start <= t < end
  }

  /** What the overlap test means for slots that are not empty: some instant lies in both. */
  lemma OverlapIsCommonInstant(start1: int, end1: int, start2: int, end2: int)
    requires start1 < end1 && start2 < end2
    ensures TimesOverlap(start1, end1, start2, end2) <==> exists t :: Within(t, start1, end1) && Within(t, start2, end2)
  {
    var later := if start1 < start2 then start2 else start1;
    if TimesOverlap(start1, end1, start2, end2) {
      assert Within(later, start1, end1) && Within(later, start2, end2);
    }
  }
}
