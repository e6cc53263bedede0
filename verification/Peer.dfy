/** The peer as the program has it: variables changed in place by its commands and handlers. Each
    method is proved to do what the functions of the system models say. */
module PeerNode {
  import opened Types
  import opened CriticalSection
  import opened Transactions
  import opened ChatHistory
  import Flooding

  const SEEN_LIMIT: nat := 100000
  const BROADCAST_TTL := 5

  class Peer {
    const me: Addr

    var clock: int
    var phase: Phase
    var requestTs: Option<int>
    var pending: set<Addr>
    var deferred: set<Addr>
    var neighbors: set<Addr>
    var seen: set<nat>

    var user: string
    var reservations: map<Station, seq<Entry>>
    var pinned: map<Room, Pin>
    var transactions: map<TxId, TxRecord>
    var current: Option<TxId>

    var room: Option<Room>
    var history: seq<Chat>

    /** The critical-section variables, with no handler or reply loop in progress. */
    function Control(): Cs
      reads this
    {
      Cs(me, clock, phase, requestTs, pending, deferred, {}, false, {}, neighbors, seen)
    }

    function Tables(): Replica
      reads this
    {
      Replica(user, reservations, pinned, transactions, current)
    }

    twostate predicate OnlyControl()
      reads this
    {
      Tables() == old(Tables()) && room == old(room) && history == old(history)
    }

    twostate predicate OnlyTables()
      reads this
    {
      Control() == old(Control()) && room == old(room) && history == old(history)
    }

    constructor (me: Addr, user: string)
      ensures this.me == me
      ensures Control() == Cs(me, 0, Idle, None, {}, {}, {}, false, {}, {}, {})
      ensures Tables() == Replica(user, map[], map[], map[], None)
      ensures room == None && history == []
    {
      this.me := me;
      this.user := user;
      clock, phase, requestTs, pending, deferred, neighbors, seen := 0, Idle, None, {}, {}, {}, {};
      reservations, pinned, transactions, current := map[], map[], map[], None;
      room, history := None, [];
    }

    /* ---- Lamport clock ---- */

    method IncrementTimestamp() returns (t: int)
      modifies this`clock
      ensures Control() == Increment(old(Control())) && OnlyControl()
      ensures t == clock
    {
      clock := clock + 1;
      t := clock;
    }

    method UpdatingLamportTime(stamp: int) returns (t: int)
      modifies this`clock
      ensures Control() == Witness(old(Control()), stamp) && OnlyControl()
      ensures t == clock && t > stamp && t > old(clock)
    {
      clock := (if clock < stamp then stamp else clock) + 1;
      t := clock;
    }

    /* ---- Sending ---- */

    /** The send loop: the copies written to all neighbors but the excluded one. */
    method Forward(ttl: int, exclude: Option<Addr>) returns (copies: seq<Flooding.Copy>)
      ensures Flooding.Broadcasts(copies, me, ttl, neighbors - (if exclude.Some? then {exclude.value} else {}))
    {
      ghost var skipped := if exclude.Some? then {exclude.value} else {};
      copies := [];
      if ttl <= 0 {
        ghost var unused := SomeListing(neighbors - skipped);
        assert copies == Flooding.Forward(me, ttl, unused);
        return;
      }
      var rest := neighbors;
      ghost var order := [];
      while rest != {}
        invariant rest <= neighbors
        invariant Lists(order, neighbors - rest - skipped)
        invariant copies == Flooding.Forward(me, ttl, order)
        decreases rest
      {
        ghost var some := SomeMember(rest);
        var n :| n in rest;
        rest := rest - {n};
        if exclude != Some(n) {
          assert n !in order;
          copies, order := copies + [Flooding.Copy(me, n, ttl - 1)], order + [n];
        }
      }
      assert neighbors - rest - skipped == neighbors - skipped;
    }

    /** A send to `addr` failed: it is taken for dead. */
    method SendFailed(addr: Addr)
      modifies this
      ensures Control() == DropPeer(old(Control()), addr) && OnlyControl()
    {
      neighbors := neighbors - {addr};
      if phase == Requesting && addr in pending {
        pending := pending - {addr};
        if pending == {} {
          phase := InCs;
        }
      }
    }

    /** The probe of the waiting loop found `node` dead. */
    method ProbeFailed(node: Addr)
      modifies this
      ensures Control() == DropProbed(old(Control()), node) && OnlyControl()
    {
      neighbors := neighbors - {node};
      if node in pending {
        pending := pending - {node};
        if pending == {} {
          phase := InCs;
        }
      }
    }

    /* ---- Critical section ---- */

    /** The request, stamped with the new clock, goes once to each peer whose vote is awaited. */
    method RequestCs() returns (copies: seq<Flooding.Copy>)
      modifies this
      ensures Control() == CriticalSection.RequestCs(old(Control())) && OnlyControl()
      ensures Flooding.Broadcasts(copies, me, BROADCAST_TTL, if old(phase) == Idle then pending else {})
    {
      copies := [];
      assert Lists([], {}) && copies == Flooding.Forward(me, BROADCAST_TTL, []);
      if phase == InCs {
        return;
      }
      if phase == Requesting {
        return;
      }
      phase := Requesting;
      var t := IncrementTimestamp();
      requestTs := Some(t);
      pending := neighbors;
      if pending == {} {
        phase := InCs;
        return;
      }
      copies := Forward(BROADCAST_TTL, None);
      assert neighbors - {} == pending;
    }

    /** Reply `k` goes to `order[k]` and carries `stamps[k]`. */
    method ReleaseCs() returns (order: seq<Addr>, stamps: seq<int>)
      modifies this
      ensures Control() == FlushAll(CriticalSection.ReleaseCs(old(Control())), order) && OnlyControl()
      ensures Lists(order, if old(phase) == InCs then old(deferred) else {})
      ensures |stamps| == |order| && forall k :: 0 <= k < |order| ==> stamps[k] == old(clock) + 1 + k
    {
      order, stamps := [], [];
      if phase != InCs {
        return;
      }
      phase := Idle;
      requestTs := None;
      var rest := deferred;
      deferred := {};
      ghost var start := CriticalSection.ReleaseCs(old(Control()));
      while rest != {}
        invariant rest <= old(deferred) && Lists(order, old(deferred) - rest)
        invariant FlushAll(start, order) == Control().(owed := rest)
        invariant clock == old(clock) + |order| && OnlyControl() && deferred == {}
        invariant |stamps| == |order| && forall k :: 0 <= k < |order| ==> stamps[k] == old(clock) + 1 + k
        decreases rest
      {
        ghost var some := SomeMember(rest);
        var q :| q in rest;
        rest := rest - {q};
        var t := IncrementTimestamp();
        assert (order + [q])[..|order|] == order;
        order, stamps := order + [q], stamps + [t];
      }
    }

    method HandleCsRequest(id: nat, from: Addr, ts: int) returns (reply: Option<int>)
      modifies this
      ensures Control() == HandleRequest(old(Control()), id, from, ts) && OnlyControl()
      ensures reply == if AnswersAtOnce(old(Control()), id, from, ts) then Some(clock) else None
    {
      reply := None;
      if phase == Idle {
        var t := IncrementTimestamp();
        return Some(t);
      }
      if phase == InCs {
        deferred := deferred + {from};
        return;
      }
      var mine := requestTs;
      if mine.None? || Before(Priority(ts, from), Priority(mine.value, me)) {
        var t := IncrementTimestamp();
        reply := Some(t);
      } else {
        deferred := deferred + {from};
      }
    }

    method HandleCsReply(sender: Addr)
      modifies this
      ensures Control() == TakeReply(old(Control()), sender) && OnlyControl()
    {
      if phase != Requesting {
        return;
      }
      pending := pending - {sender};
      if pending == {} {
        phase := InCs;
      }
    }

    /* ---- Transactions ---- */

    method BeginTransaction(id: TxId)
      modifies this
      ensures Tables() == Transactions.Begin(old(Tables()), id) && OnlyTables()
    {
      if current.Some? {
        return;
      }
      current := Some(id);
      transactions := transactions[id := TxRecord(user, [], Active)];
    }

    /** Both `add` commands: reservations and pins differ in the operation only. */
    method AddTxOp(op: Op)
      modifies this
      ensures Tables() == AddOp(old(Tables()), op) && OnlyTables()
    {
      if current.None? {
        return;
      }
      var id := current.value;
      if id !in transactions || transactions[id].status != Active {
        return;
      }
      var t := transactions[id];
      transactions := transactions[id := t.(ops := t.ops + [op])];
    }

    /** The loop over one station's entries. */
    method StationClashes(tx: TxId, st: Station, start: int, end: int) returns (clash: bool)
      ensures clash == Clashes(Tables(), tx, Reserve(st, start, end))
    {
      var existing := if st in reservations then reservations[st] else [];
      for i := 0 to |existing|
        invariant forall k :: 0 <= k < i ==>
                    !TimesOverlap(start, end, existing[k].start, existing[k].end) || existing[k].tx == tx
      {
        var x := existing[i];
        if TimesOverlap(start, end, x.start, x.end) && x.tx != tx {
          assert Lookup(Tables().reservations, st)[i] == x;
          return true;
        }
      }
      return false;
    }

    method ValidateTransaction(tx: TxId, ops: seq<Op>) returns (ok: bool)
      ensures ok == Valid(Tables(), tx, ops)
    {
      for i := 0 to |ops|
        invariant forall k :: 0 <= k < i ==> !Clashes(Tables(), tx, ops[k])
      {
        match ops[i]
        case Reserve(st, start, end) =>
          var clash := StationClashes(tx, st, start, end);
          if clash {
            return false;
          }
        case PinText(r, _) =>
          if r in pinned && pinned[r].tx != tx {
            return false;
          }
      }
      return true;
    }

    method ApplyTransaction(tx: TxId, owner: string, ops: seq<Op>)
      modifies this
      ensures Tables() == ApplyOps(old(Tables()), tx, owner, ops) && OnlyTables()
    {
      for i := 0 to |ops|
        invariant Tables() == ApplyOps(old(Tables()), tx, owner, ops[..i]) && OnlyTables()
      {
        assert ops[..i + 1][..i] == ops[..i];
        match ops[i]
        case Reserve(st, start, end) =>
          var entries := if st in reservations then reservations[st] else [];
          reservations := reservations[st := entries + [Entry(start, end, owner, tx)]];
        case PinText(r, text) =>
          pinned := pinned[r := Pin(text, owner, tx)];
      }
      assert ops[..|ops|] == ops;
    }

    /** The body that `commit` runs inside the critical section; the payload is then broadcast. */
    method CommitInside(tx: TxId) returns (payload: Option<Payload>)
      modifies this
      ensures Tables() == DoCommit(old(Tables()), tx) && OnlyTables()
      ensures payload == CommitMessage(old(Tables()), tx)
    {
      if tx !in transactions || transactions[tx].status != Active {
        return None;
      }
      var t := transactions[tx];
      var ok := ValidateTransaction(tx, t.ops);
      if !ok {
        transactions := transactions[tx := t.(status := Aborted)];
        return Some(TxAbort(tx, t.user));
      }
      ApplyTransaction(tx, t.user, t.ops);
      transactions := transactions[tx := t.(status := Committed)];
      return Some(TxCommit(tx, t.user, t.ops));
    }

    method AbortTransaction() returns (payload: Option<Payload>)
      modifies this
      ensures Tables() == UserAbort(old(Tables())) && OnlyTables()
      ensures payload == AbortMessage(old(Tables()))
    {
      payload := None;
      if current.None? {
        return;
      }
      var id := current.value;
      if id !in transactions || transactions[id].status != Active {
        return;
      }
      var t := transactions[id];
      transactions := transactions[id := t.(status := Aborted)];
      current := None;
      payload := Some(TxAbort(id, t.user));
    }

    method HandleTxCommit(tx: TxId, from: string, ops: seq<Op>)
      modifies this
      ensures Tables() == TakeCommit(old(Tables()), tx, from, ops) && OnlyTables()
    {
      var t := if tx in transactions then transactions[tx] else TxRecord(from, ops, Committed);
      transactions := transactions[tx := TxRecord(t.user, ops, Committed)];
      ApplyTransaction(tx, t.user, ops);
    }

    /** The filter that keeps the entries of other transactions. */
    method EntriesWithout(xs: seq<Entry>, tx: TxId) returns (kept: seq<Entry>)
      ensures kept == Without(xs, tx)
    {
      kept := [];
      for i := 0 to |xs|
        invariant kept == Without(xs[..i], tx)
      {
        assert xs[..i + 1][..i] == xs[..i];
        if xs[i].tx != tx {
          kept := kept + [xs[i]];
        }
      }
      assert xs[..|xs|] == xs;
    }

    /** The roll-back loop over all stations. */
    method DropEntries(tx: TxId)
      modifies this`reservations
      ensures Tables() == RollBack(old(Tables()), tx)
    {
      ghost var was := reservations;
      var rest := reservations.Keys;
      while rest != {}
        invariant rest <= was.Keys && reservations.Keys == was.Keys
        invariant forall st :: st in was ==> reservations[st] == if st in rest then was[st] else Without(was[st], tx)
        decreases rest
      {
        ghost var some := SomeMember(rest);
        var st :| st in rest;
        rest := rest - {st};
        var kept := EntriesWithout(reservations[st], tx);
        reservations := reservations[st := kept];
      }
      assert reservations == RollBack(old(Tables()), tx).reservations;
    }

    method HandleTxAbort(tx: TxId, from: string)
      modifies this
      ensures Tables() == TakeAbort(old(Tables()), tx, from) && OnlyTables()
    {
      var t := if tx in transactions then transactions[tx] else TxRecord(from, [], Aborted);
      transactions := transactions[tx := t.(status := Aborted)];
      DropEntries(tx);
    }

    method HandlePinSync(pins: map<Room, Pin>)
      modifies this
      ensures Tables() == TakePins(old(Tables()), pins) && OnlyTables()
    {
      ghost var was := pinned;
      var rest := pins.Keys;
      while rest != {}
        invariant rest <= pins.Keys && pinned.Keys == was.Keys + (pins.Keys - rest)
        invariant forall r :: r in pinned ==> pinned[r] == if r in pins && r !in rest then pins[r] else was[r]
        invariant Tables() == old(Tables()).(pins := pinned) && OnlyTables()
        decreases rest
      {
        ghost var some := SomeMember(rest);
        var r :| r in rest;
        rest := rest - {r};
        pinned := pinned[r := pins[r]];
      }
      assert pinned == was + pins;
    }

    method HandleChat(chat: Chat)
      modifies this
      ensures history == if chat.room.None? || chat.room == room then StableSort(old(history) + [chat]) else old(history)
      ensures Control() == old(Control()) && Tables() == old(Tables()) && room == old(room)
    {
      if chat.room.Some? && chat.room != room {
        return;
      }
      history := StableSort(history + [chat]);
    }

    /* ---- Dispatch ---- */

    /** The duplicate check; a log above its limit drops one id. */
    method Remember(id: nat) returns (known: bool, ghost dropped: set<nat>)
      modifies this`seen
      ensures known == (id in old(seen)) && Trims(old(seen), id, dropped)
      ensures seen == old(seen) + {id} - dropped
    {
      dropped := {};
      known := id in seen;
      if known {
        assert seen == seen + {id} - {};
        return;
      }
      seen := seen + {id};
      if |seen| > SEEN_LIMIT {
        assert id in seen;
        var oldest :| oldest in seen;
        seen := seen - {oldest};
        dropped := {oldest};
      }
    }

    method HandlePayload(data: Payload)
      modifies this
      ensures Tables() == TakePayload(old(Tables()), data) && OnlyTables()
    {
      match data
      case TxCommit(tx, from, ops) => HandleTxCommit(tx, from, ops);
      case TxAbort(tx, from) => HandleTxAbort(tx, from);
      case PinSync(pins) => HandlePinSync(pins);
    }

    /** A critical-section or transaction message: clock, neighbors, duplicate check, handler. */
    method HandleMsg(e: Envelope) returns (reply: Option<int>, ghost dropped: set<nat>)
      modifies this
      ensures room == old(room) && history == old(history) && Trims(old(seen), e.id, dropped)
      ensures Control() == HandledControl(old(Control()), e, dropped)
      ensures Tables() == if e.id !in old(seen) && e.body.Data? then TakePayload(old(Tables()), e.body.data) else old(Tables())
      ensures reply == if e.id !in old(seen) && e.body.CsRequest?
                          && AnswersAtOnce(Arrive(old(Control()), e), e.id, e.from, e.body.ts)
                       then Some(clock) else None
    {
      reply := None;
      var t := UpdatingLamportTime(Stamp(e.body));
      if e.from != me {
        neighbors := neighbors + {e.from};
      }
      var known;
      known, dropped := Remember(e.id);
      if known {
        return;
      }
      match e.body
      case CsRequest(ts) => reply := HandleCsRequest(e.id, e.from, ts);
      case CsReply(_) => HandleCsReply(e.from);
      case Data(_, data) => HandlePayload(data);
    }

    /** A flooded message: dropped if its id is known, else passed on to all neighbors but its origin
        and, if it is a chat, logged. */
    method HandleFlooded(id: nat, origin: Addr, stamp: int, ttl: int, chat: Option<Chat>)
      returns (copies: seq<Flooding.Copy>, ghost dropped: set<nat>)
      modifies this
      ensures Tables() == old(Tables()) && room == old(room) && Trims(old(seen), id, dropped)
      ensures Control() == Witness(old(Control()), stamp).(
                neighbors := old(neighbors) + (if origin != me then {origin} else {}),
                seen := old(seen) + {id} - dropped)
      ensures if id in old(seen) then copies == [] else Flooding.Broadcasts(copies, me, ttl, old(neighbors) - {origin})
      ensures history == if id in old(seen) || chat.None? || !(chat.value.room.None? || chat.value.room == room)
                         then old(history) else StableSort(old(history) + [chat.value])
    {
      var t := UpdatingLamportTime(stamp);
      if origin != me {
        neighbors := neighbors + {origin};
      }
      assert neighbors - {origin} == old(neighbors) - {origin};
      var known;
      known, dropped := Remember(id);
      if known {
        copies := [];
        return;
      }
      copies := Forward(ttl, Some(origin));
      if chat.Some? {
        HandleChat(chat.value);
      }
    }
  }

  /** A log that stays within its limit keeps every id; one that exceeds it loses exactly one. A known id
      drops nothing. */
  predicate Trims(seen: set<nat>, id: nat, dropped: set<nat>) {
    if id in seen || |seen + {id}| <= SEEN_LIMIT then dropped == {}
    else |dropped| == 1 && dropped <= seen + {id}
  }

  /** The critical-section variables after a message was handled and `dropped` left the id log. */
  function HandledControl(n: Cs, e: Envelope, dropped: set<nat>): Cs {
    var a := Arrive(n, e);
    var b := a.(seen := a.seen - dropped);
    if e.id in n.seen then b
    else
      match e.body
      case CsRequest(ts) => HandleRequest(b, e.id, e.from, ts)
      case CsReply(_) => TakeReply(b, e.from)
      case Data(_, _) => b
  }

  /** Any finite set can be listed. */
  lemma {:induction false} SomeListing(s: set<Addr>) returns (order: seq<Addr>)
    ensures Lists(order, s)
  {
    if s == {} {
      order := [];
    } else {
      var p := SomeMember(s);
      order := SomeListing(s - {p});
      order := order + [p];
    }
  }
}
