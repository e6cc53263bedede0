/** All peers, all messages in flight, and every step the system can take. */
module MutexSystem {
  import opened Types
  import opened CriticalSection

  /** `next` is above every message id in use; `dead` are the peers that have crashed. */
  datatype World = World(nodes: map<Addr, Cs>, net: set<Envelope>, next: nat, dead: set<Addr>)

  datatype Step =
    | Request(p: Addr)
    | Enter(p: Addr)
    | Collect(p: Addr)
    | Clear(p: Addr)
    | FlushReply(p: Addr, q: Addr)
    | Receive(e: Envelope)
    | Load(p: Addr, t: Task)
    | Act(p: Addr, t: Task)
    | Send(p: Addr, to: set<Addr>, data: Payload)
    | Advance(p: Addr, clock: int)
    | Evict(p: Addr, id: nat)
    | Crash(p: Addr, lost: set<Envelope>)
    | Detect(p: Addr, d: Addr)

  predicate Live(w: World, p: Addr) {
    p in w.nodes && p !in w.dead
  }

  predicate Init(w: World) {
    && w.net == {}
    && w.dead == {}
    && forall p :: p in w.nodes ==> InitNode(w.nodes[p], p, w.nodes.Keys, w.next)
  }

  predicate InitNode(n: Cs, p: Addr, peers: set<Addr>, next: nat) {
    && n.me == p
    && n.phase == Idle
    && n.reqTs == None
    && n.pending == {}
    && n.deferred == {}
    && n.owed == {}
    && !n.releasing
    && n.tasks == {}
    && n.neighbors == peers - {p}
    && forall id :: id in n.seen ==> id < next
  }

  /** A release holds the lock of its peer, and so keeps out whatever else needs that lock. The
      unlocked steps of a request handler are free to come in between. */
  predicate Enabled(w: World, s: Step) {
    match s
    case Request(p) => Live(w, p) && !w.nodes[p].releasing
    case Enter(p) => Live(w, p) && w.nodes[p].phase == Requesting && w.nodes[p].pending == {}
    case Collect(p) => Live(w, p) && !w.nodes[p].releasing
    case Clear(p) => Live(w, p) && w.nodes[p].releasing
    case FlushReply(p, q) => Live(w, p) && !w.nodes[p].releasing && q in w.nodes[p].owed
    case Receive(e) => e in w.net && Live(w, e.to) && (w.nodes[e.to].releasing ==> e.body.Data?)
    case Load(p, t) => Live(w, p) && t in w.nodes[p].tasks && t.Waiting?
    case Act(p, t) => Live(w, p) && t in w.nodes[p].tasks && t.Loaded?
    case Send(p, to, _) => Live(w, p) && to <= w.nodes[p].neighbors
    case Advance(p, clock) => Live(w, p) && w.nodes[p].clock < clock
    case Evict(p, id) => Live(w, p)
    case Crash(p, lost) => Live(w, p) && lost <= w.net && forall e :: e in lost ==> e.from == p
    case Detect(p, d) => Live(w, p) && !w.nodes[p].releasing && d in w.dead
  }

  /** The peer that takes the step. */
  function Actor(s: Step): Addr {
    match s
    case Request(p) => p
    case Enter(p) => p
    case Collect(p) => p
    case Clear(p) => p
    case FlushReply(p, _) => p
    case Receive(e) => e.to
    case Load(p, _) => p
    case Act(p, _) => p
    case Send(p, _, _) => p
    case Advance(p, _) => p
    case Evict(p, _) => p
    case Crash(p, _) => p
    case Detect(p, _) => p
  }

  /** The actor's variables after the step. A message whose id was seen only moves the clock and
      the neighbor set. */
  function After(w: World, s: Step): Cs
    requires Enabled(w, s)
  {
    var n := w.nodes[Actor(s)];
    match s
    case Request(_) => Ask(n)
    case Enter(_) => EnterAlone(n)
    case Collect(_) => CriticalSection.Collect(n)
    case Clear(_) => CriticalSection.Clear(n)
    case FlushReply(_, q) => Flush(n, q)
    case Receive(e) =>
      var a := Arrive(n, e);
      if e.id in n.seen then a
      else (match e.body
            case CsRequest(ts) => TakeRequest(a, e.id, e.from, ts)
            case CsReply(_) => TakeReply(a, e.from)
            case Data(_, _) => a)
    case Load(_, t) => LoadTs(n, t)
    case Act(_, t) => ActOn(n, t)
    case Send(_, _, _) => Increment(n)
    case Advance(_, clock) => n.(clock := clock)
    case Evict(_, id) => n.(seen := n.seen - {id})
    case Crash(_, _) => n
    case Detect(_, d) => DropPeer(n, d)
  }

  /** The copies the actor writes to its sockets. A reply carries the clock it was just given. */
  function Sent(w: World, s: Step): set<Envelope>
    requires Enabled(w, s)
  {
    var n := w.nodes[Actor(s)];
    var m := After(w, s);
    match s
    case Request(p) => if n.phase == Idle then Copies(w.next, p, m.pending, CsRequest(m.clock)) else {}
    case FlushReply(p, q) => {Env(w.next, p, q, CsReply(m.clock))}
    case Receive(e) =>
      if e.id !in n.seen && e.body.CsRequest? && n.phase == Idle then {Env(w.next, e.to, e.from, CsReply(m.clock))}
      else {}
    case Act(p, t) => if Wins(t, n.me) then {Env(w.next, p, t.from, CsReply(m.clock))} else {}
    case Send(p, to, data) => Copies(w.next, p, to, Data(m.clock, data))
    case _ => {}
  }

  function Consumed(s: Step): set<Envelope> {
    match s
    case Receive(e) => {e}
    case Crash(_, lost) => lost
    case _ => {}
  }

  function Next(w: World, s: Step): World
    requires Enabled(w, s)
  {
    World(w.nodes[Actor(s) := After(w, s)],
          w.net - Consumed(s) + Sent(w, s),
          w.next + 1,
          if s.Crash? then w.dead + {s.p} else w.dead)
  }

  predicate StepAt(ws: seq<World>, ss: seq<Step>, k: nat) {
    k < |ss| && k + 1 < |ws| && Enabled(ws[k], ss[k]) && ws[k + 1] == Next(ws[k], ss[k])
  }

  /** The steps ss lead through the states ws. */
  predicate IsPath(ws: seq<World>, ss: seq<Step>) {
    |ws| == |ss| + 1 && forall k :: 0 <= k < |ss| ==> StepAt(ws, ss, k)
  }

  predicate IsRun(ws: seq<World>, ss: seq<Step>) {
    IsPath(ws, ss) && Init(ws[0])
  }

  lemma {:induction false} LiveBefore(ws: seq<World>, ss: seq<Step>, m: nat, k: nat, p: Addr)
    requires IsPath(ws, ss) && m <= k < |ws| && Live(ws[k], p)
    ensures Live(ws[m], p)
  {
    if m < k {
      assert StepAt(ws, ss, k - 1);
      LiveBefore(ws, ss, m, k - 1, p);
    }
  }

  /** Two worlds are equal if their parts are; sets are compared member by member. */
  lemma StepIs(w: World, s: Step, v: World)
    requires Enabled(w, s) && !s.Crash? && w.nodes.Keys == v.nodes.Keys
    requires var n, m := After(w, s), v.nodes[Actor(s)];
             && n.pending == m.pending && n.deferred == m.deferred && n.owed == m.owed && n.releasing == m.releasing
             && n.tasks == m.tasks && n.neighbors == m.neighbors && n.seen == m.seen
             && n == m.(pending := n.pending, deferred := n.deferred, owed := n.owed, tasks := n.tasks,
                        neighbors := n.neighbors, seen := n.seen)
    requires forall p :: p in w.nodes && p != Actor(s) ==> w.nodes[p] == v.nodes[p]
    requires w.net - Consumed(s) + Sent(w, s) == v.net
    requires v.next == w.next + 1 && v.dead == w.dead
    ensures Next(w, s) == v
  {
    assert After(w, s) == v.nodes[Actor(s)];
    var nodes := w.nodes[Actor(s) := After(w, s)];
    assert nodes.Keys == v.nodes.Keys;
    forall p | p in nodes
      ensures nodes[p] == v.nodes[p]
    {
    }
    assert nodes == v.nodes;
  }

  lemma PathExtends(ws: seq<World>, ss: seq<Step>, s: Step)
    requires IsPath(ws, ss) && Enabled(ws[|ss|], s)
    ensures IsPath(ws + [Next(ws[|ss|], s)], ss + [s])
  {
    var us, ts := ws + [Next(ws[|ss|], s)], ss + [s];
    forall k | 0 <= k < |ts|
      ensures StepAt(us, ts, k)
    {
      assert k < |ss| ==> StepAt(ws, ss, k);
    }
  }

  /** A run, one step longer. */
  lemma Then(before: seq<World>, steps: seq<Step>, s: Step, w: World) returns (ws: seq<World>, ss: seq<Step>)
    requires IsRun(before, steps) && Enabled(before[|steps|], s) && w == Next(before[|steps|], s)
    ensures IsRun(ws, ss) && ws[|ss|] == w && ws == before + [w] && ss == steps + [s]
  {
    PathExtends(before, steps, s);
    ws, ss := before + [w], steps + [s];
  }
}
