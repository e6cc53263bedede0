/** What one peer does for the global critical section, as functions on its own variables. */
module CriticalSection {
  import opened Types

  datatype Phase = Idle | Requesting | InCs

  /** A thread that is past the locked part of the request handler: it still has to read the
      local request stamp (Waiting), or has read it and still has to act on it (Loaded). */
  datatype Task =
    | Waiting(id: nat, from: Addr, ts: int)
    | Loaded(id: nat, from: Addr, ts: int, mine: Option<int>)

  /** `releasing` holds from the copying of the deferred peers to their clearing, both under the lock;
      `owed` are the replies a release has collected but not sent yet. */
  datatype Cs = Cs(
    me: Addr,
    clock: int,
    phase: Phase,
    reqTs: Option<int>,
    pending: set<Addr>,
    deferred: set<Addr>,
    owed: set<Addr>,
    releasing: bool,
    tasks: set<Task>,
    neighbors: set<Addr>,
    seen: set<nat>)

  function Increment(n: Cs): Cs {
    n.(clock := n.clock + 1)
  }

  function Witness(n: Cs, lam: int): Cs {
    n.(clock := (if n.clock < lam then lam else n.clock) + 1)
  }

  /** The locked part of a request. */
  function Ask(n: Cs): Cs {
    if n.phase != Idle then n
    else n.(clock := n.clock + 1, phase := Requesting, reqTs := Some(n.clock + 1), pending := n.neighbors)
  }

  /** What a peer does that finds itself without a vote to wait for, after it has left the lock. */
  function EnterAlone(n: Cs): Cs {
    if n.phase == Requesting && n.pending == {} then n.(phase := InCs) else n
  }

  /** A request with nothing in between. */
  function RequestCs(n: Cs): Cs {
    if n.phase != Idle then n else EnterAlone(Ask(n))
  }

  /** The release up to the copy of the deferred peers. */
  function Collect(n: Cs): Cs {
    if n.phase != InCs then n
    else n.(phase := Idle, reqTs := None, owed := n.owed + n.deferred, releasing := true)
  }

  /** The clearing that follows: it also clears what was added since the copy. */
  function Clear(n: Cs): Cs {
    n.(deferred := {}, releasing := false)
  }

  /** The locked part of a release with nothing in between. */
  function ReleaseCs(n: Cs): Cs {
    if n.phase != InCs then n else Clear(Collect(n))
  }

  /** One iteration of the reply loop that ends a release. */
  function Flush(n: Cs, q: Addr): Cs {
    Increment(n.(owed := n.owed - {q}))
  }

  /** What every message does on arrival, before its type is looked at. */
  function Arrive(n: Cs, e: Envelope): Cs {
    var m := Witness(n, Stamp(e.body));
    m.(neighbors := if e.from != n.me then m.neighbors + {e.from} else m.neighbors,
       seen := m.seen + {e.id})
  }

  /** The locked part of the request handler. */
  function TakeRequest(n: Cs, id: nat, from: Addr, ts: int): Cs {
    match n.phase
    case Idle => Increment(n)
    case InCs => n.(deferred := n.deferred + {from})
    case Requesting => n.(tasks := n.tasks + {Waiting(id, from, ts)})
  }

  function LoadTs(n: Cs, t: Task): Cs {
    n.(tasks := n.tasks - {t} + {Loaded(t.id, t.from, t.ts, n.reqTs)})
  }

  /** An absent local stamp counts as infinity. */
  predicate Wins(t: Task, me: Addr)
    requires t.Loaded?
  {
    t.mine.None? || Before(Priority(t.ts, t.from), Priority(t.mine.value, me))
  }

  /** The unlocked tail of the request handler. */
  function ActOn(n: Cs, t: Task): Cs
    requires t.Loaded?
  {
    if Wins(t, n.me) then Increment(n.(tasks := n.tasks - {t}))
    else n.(tasks := n.tasks - {t}, deferred := n.deferred + {t.from})
  }

  /** The request handler run from start to end without interruption. */
  function HandleRequest(n: Cs, id: nat, from: Addr, ts: int): Cs {
    var m := TakeRequest(n, id, from, ts);
    if n.phase != Requesting then m
    else ActOn(LoadTs(m, Waiting(id, from, ts)), Loaded(id, from, ts, n.reqTs))
  }

  /** Whether that run answers at once. */
  predicate AnswersAtOnce(n: Cs, id: nat, from: Addr, ts: int) {
    n.phase == Idle || (n.phase == Requesting && Wins(Loaded(id, from, ts, n.reqTs), n.me))
  }

  /** The whole reply loop of a release. */
  function FlushAll(n: Cs, order: seq<Addr>): Cs {
    if order == [] then n else Flush(FlushAll(n, order[..|order| - 1]), order[|order| - 1])
  }

  function TakeReply(n: Cs, from: Addr): Cs {
    if n.phase != Requesting then n
    else
      var left := n.pending - {from};
      n.(pending := left, phase := if left == {} then InCs else Requesting)
  }

  /** The failure branch of a send: forget the peer, and its vote if it is still awaited. */
  function DropPeer(n: Cs, d: Addr): Cs {
    var m := n.(neighbors := n.neighbors - {d});
    if m.phase == Requesting && d in m.pending then TakeReply(m, d) else m
  }

  /** The probe of the waiting loop, which looks at the awaited votes and not at the state. */
  function DropProbed(n: Cs, d: Addr): Cs {
    var m := n.(neighbors := n.neighbors - {d});
    if d !in m.pending then m
    else m.(pending := m.pending - {d}, phase := if m.pending - {d} == {} then InCs else m.phase)
  }

  predicate Engaged(n: Cs) {
    n.phase != Idle
  }

  function Prio(n: Cs): Priority
    requires n.reqTs.Some?
  {
    Priority(n.reqTs.value, n.me)
  }
}
