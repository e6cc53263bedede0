/** Vocabulary shared by every layer: addresses, priorities, transaction operations, messages. */
module Types {

  datatype Option<+T> = None | Some(value: T)

  /** Every peer runs on the same constant host, so its port is its address. */
  type Addr = int
  type TxId = nat
  type Station = string
  type Room = string

  /** The pair a request carries: its Lamport stamp, ties broken by address. */
  datatype Priority = Priority(ts: int, addr: Addr)

  /** Python's tuple order on (stamp, address). */
  predicate Before(a: Priority, b: Priority) {
    a.ts < b.ts || (a.ts == b.ts && a.addr < b.addr)
  }

  datatype Op =
    | Reserve(station: Station, start: int, end: int)
    | PinText(room: Room, text: string)

  datatype Pin = Pin(text: string, user: string, tx: TxId)

  /** What the transaction layer ships; the critical-section layer only stamps and carries it. */
  datatype Payload =
    | TxCommit(tx: TxId, user: string, ops: seq<Op>)
    | TxAbort(tx: TxId, user: string)
    | PinSync(pins: map<Room, Pin>)

  datatype Body =
    | CsRequest(ts: int)
    | CsReply(lam: int)
    | Data(lam: int, data: Payload)

  function Stamp(b: Body): int {
    match b
    case CsRequest(ts) => ts
    case CsReply(lam) => lam
    case Data(lam, _) => lam
  }

  /** One copy of a message on its way. The copies of one broadcast share their id. */
  datatype Envelope = Env(id: nat, from: Addr, to: Addr, body: Body)

  function Copies(id: nat, from: Addr, to: set<Addr>, body: Body): (r: set<Envelope>)
    ensures forall e :: e in r <==> e.id == id && e.from == from && e.to in to && e.body == body
  {
    set q | q in to :: Env(id, from, q, body)
  }

  /** A loop over a set visits its members in some order, each once. */
  ghost predicate Lists(order: seq<Addr>, s: set<Addr>) {
    && (forall a :: a in order <==> a in s)
    && (forall i, j :: 0 <= i < j < |order| ==> order[i] != order[j])
  }

  lemma SomeMember<T>(s: set<T>) returns (p: T)
    requires s != {}
    ensures p in s
  {
    assert exists q :: q in s by {
      if !exists q :: q in s {
        assert false;
      }
    }
    p :| p in s;
  }
}
