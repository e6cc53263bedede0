/** How the peer's uninterrupted handlers, loops and commands are made of the steps of the systems. */
module PeerSteps {
  import opened Types
  import opened CriticalSection
  import opened MutexSystem
  import opened Transactions
  import opened Replication
  import opened PeerNode
  import opened ChatHistory

  /** The state after the steps, if each is enabled in its turn. */
  function Taken(w: World, steps: seq<Step>): Option<World> {
    if steps == [] then Some(w)
    else
      var v := Taken(w, steps[..|steps| - 1]);
      if v.Some? && Enabled(v.value, steps[|steps| - 1]) then Some(Next(v.value, steps[|steps| - 1])) else None
  }

  lemma TakenThen(w: World, steps: seq<Step>, v: World, s: Step)
    requires Taken(w, steps) == Some(v) && Enabled(v, s)
    ensures Taken(w, steps + [s]) == Some(Next(v, s))
  {
    assert (steps + [s])[..|steps|] == steps;
  }

  /* ---- Handlers ---- */

  /** Receiving a request, reading the local stamp and acting on it, with nothing in between, is the
      request handler run from start to end. */
  lemma HandlerIsThreeSteps(w: World, e: Envelope)
    requires Enabled(w, Receive(e)) && e.body.CsRequest? && w.nodes[e.to].me == e.to
    requires e.id !in w.nodes[e.to].seen && w.nodes[e.to].tasks == {} && w.nodes[e.to].phase == Requesting
    ensures var n := w.nodes[e.to];
            var task := Waiting(e.id, e.from, e.body.ts);
            var loaded := Loaded(e.id, e.from, e.body.ts, n.reqTs);
            var w1 := Next(w, Receive(e));
            && Enabled(w1, Load(e.to, task))
            && var w2 := Next(w1, Load(e.to, task));
            && Enabled(w2, Act(e.to, loaded))
            && var w3 := Next(w2, Act(e.to, loaded));
            && w3.nodes[e.to] == HandleRequest(Arrive(n, e), e.id, e.from, e.body.ts)
            && w3.nodes[e.to].tasks == {}
            && w3.net == w.net - {e} + (if AnswersAtOnce(Arrive(n, e), e.id, e.from, e.body.ts)
                                        then {Env(w.next + 2, e.to, e.from, CsReply(w3.nodes[e.to].clock))} else {})
  {
    var n := w.nodes[e.to];
    var a := Arrive(n, e);
    var task := Waiting(e.id, e.from, e.body.ts);
    var w1 := Next(w, Receive(e));
    var w2 := Next(w1, Load(e.to, task));
    assert w1.nodes[e.to] == TakeRequest(a, e.id, e.from, e.body.ts);
    assert w2.nodes[e.to] == LoadTs(w1.nodes[e.to], task);
  }

  /** The message has to be compared with its receiver's own request. */
  predicate Weighs(n: Cs, e: Envelope) {
    e.body.CsRequest? && e.id !in n.seen && n.phase == Requesting
  }

  function HandlerSteps(n: Cs, e: Envelope): seq<Step> {
    if Weighs(n, e) then
      [Receive(e), Load(e.to, Waiting(e.id, e.from, e.body.ts)), Act(e.to, Loaded(e.id, e.from, e.body.ts, n.reqTs))]
    else [Receive(e)]
  }

  lemma OneStepTaken(w: World, e: Envelope)
    requires Enabled(w, Receive(e))
    ensures Taken(w, [Receive(e)]) == Some(Next(w, Receive(e)))
  {
    TakenThen(w, [], w, Receive(e));
    assert [] + [Receive(e)] == [Receive(e)];
  }

  lemma ThreeStepsTaken(w: World, e: Envelope, load: Step, act: Step)
    requires Enabled(w, Receive(e)) && Enabled(Next(w, Receive(e)), load) && Enabled(Next(Next(w, Receive(e)), load), act)
    ensures Taken(w, [Receive(e), load, act]) == Some(Next(Next(Next(w, Receive(e)), load), act))
  {
    OneStepTaken(w, e);
    var v := Next(w, Receive(e));
    TakenThen(w, [Receive(e)], v, load);
    TakenThen(w, [Receive(e)] + [load], Next(v, load), act);
    assert [Receive(e)] + [load] + [act] == [Receive(e), load, act];
  }

  lemma HandlerStepsTaken(w: World, e: Envelope) returns (v: World)
    requires Enabled(w, Receive(e)) && w.nodes[e.to].me == e.to && w.nodes[e.to].tasks == {}
    ensures Taken(w, HandlerSteps(w.nodes[e.to], e)) == Some(v) && Live(v, e.to)
    ensures v.nodes[e.to] == HandledControl(w.nodes[e.to], e, {})
    ensures v.net == w.net - {e} + Replied(w, e, v.nodes[e.to].clock)
  {
    if Weighs(w.nodes[e.to], e) {
      v := WeighedTaken(w, e);
    } else {
      v := Next(w, Receive(e));
      OneStepTaken(w, e);
    }
  }

  lemma WeighedTaken(w: World, e: Envelope) returns (v: World)
    requires Enabled(w, Receive(e)) && w.nodes[e.to].me == e.to && w.nodes[e.to].tasks == {} && Weighs(w.nodes[e.to], e)
    ensures Taken(w, HandlerSteps(w.nodes[e.to], e)) == Some(v) && Live(v, e.to)
    ensures v.nodes[e.to] == HandledControl(w.nodes[e.to], e, {})
    ensures v.net == w.net - {e} + Replied(w, e, v.nodes[e.to].clock)
  {
    HandlerIsThreeSteps(w, e);
    var load, act := HandlerSteps(w.nodes[e.to], e)[1], HandlerSteps(w.nodes[e.to], e)[2];
    ThreeStepsTaken(w, e, load, act);
    v := Next(Next(Next(w, Receive(e)), load), act);
  }

  /** The reply that the handling of the message writes, if any. */
  function Replied(w: World, e: Envelope, lam: int): set<Envelope>
    requires e.to in w.nodes
  {
    var n := w.nodes[e.to];
    if e.id !in n.seen && e.body.CsRequest? && AnswersAtOnce(Arrive(n, e), e.id, e.from, e.body.ts) then
      {Env(w.next + (if Weighs(n, e) then 2 else 0), e.to, e.from, CsReply(lam))}
    else {}
  }

  /** The peer's method for critical-section and transaction messages is these steps, followed by one
      that lets the log lose an id if it does; its reply is the message they send. */
  lemma MessageIsSteps(w: World, e: Envelope, dropped: Option<nat>) returns (v: World)
    requires Enabled(w, Receive(e)) && w.nodes[e.to].me == e.to && w.nodes[e.to].tasks == {}
    ensures Taken(w, HandlerSteps(w.nodes[e.to], e) + if dropped.Some? then [Evict(e.to, dropped.value)] else []) == Some(v)
    ensures v.nodes[e.to] == HandledControl(w.nodes[e.to], e, if dropped.Some? then {dropped.value} else {})
    ensures v.net == w.net - {e} + Replied(w, e, v.nodes[e.to].clock)
  {
    v := HandlerStepsTaken(w, e);
    var steps := HandlerSteps(w.nodes[e.to], e);
    if dropped.Some? {
      TakenThen(w, steps, v, Evict(e.to, dropped.value));
      v := Next(v, Evict(e.to, dropped.value));
    } else {
      assert steps + [] == steps;
    }
  }

  /* ---- The release ---- */

  function Replies(p: Addr, order: seq<Addr>): seq<Step> {
    seq(|order|, k requires 0 <= k < |order| => FlushReply(p, order[k]))
  }

  /** Both halves of the locked part. */
  function Released(w: World, p: Addr): World
    requires Live(w, p) && w.nodes[p].phase == InCs && !w.nodes[p].releasing
  {
    Next(Next(w, Step.Collect(p)), Step.Clear(p))
  }

  /** v is w with the listed replies sent, with successive stamps, and no other message. */
  ghost predicate Flushed(w: World, p: Addr, order: seq<Addr>, v: World)
    requires p in w.nodes
  {
    && Live(v, p) && v.nodes[p] == FlushAll(w.nodes[p], order) && !v.nodes[p].releasing
    && v.nodes[p].clock == w.nodes[p].clock + |order| && v.next == w.next + |order|
    && (forall q :: q in v.nodes[p].owed <==> q in w.nodes[p].owed && q !in order)
    && v.net == w.net + RepliesSent(w, p, order)
  }

  function RepliesSent(w: World, p: Addr, order: seq<Addr>): set<Envelope>
    requires p in w.nodes
  {
    set k | 0 <= k < |order| :: Env(w.next + k, p, order[k], CsReply(w.nodes[p].clock + 1 + k))
  }

  lemma OneMoreReply(w: World, p: Addr, init: seq<Addr>, q: Addr, u: World)
    requires p in w.nodes && Flushed(w, p, init, u) && q in w.nodes[p].owed && q !in init
    ensures Enabled(u, FlushReply(p, q)) && Flushed(w, p, init + [q], Next(u, FlushReply(p, q)))
  {
    var order := init + [q];
    assert order[..|init|] == init;
    var e := Env(w.next + |init|, p, q, CsReply(w.nodes[p].clock + 1 + |init|));
    assert Sent(u, FlushReply(p, q)) == {e};
    RepliesGrow(w, p, init, q, e);
  }

  lemma RepliesGrow(w: World, p: Addr, init: seq<Addr>, q: Addr, e: Envelope)
    requires p in w.nodes && e == Env(w.next + |init|, p, q, CsReply(w.nodes[p].clock + 1 + |init|))
    ensures RepliesSent(w, p, init + [q]) == RepliesSent(w, p, init) + {e}
  {
    var order := init + [q];
    forall f | f in RepliesSent(w, p, init) + {e}
      ensures f in RepliesSent(w, p, order)
    {
      if f == e {
        assert order[|init|] == q;
      } else {
        var k :| 0 <= k < |init| && f == Env(w.next + k, p, init[k], CsReply(w.nodes[p].clock + 1 + k));
        assert order[k] == init[k];
      }
    }
  }

  lemma HalvesAreSteps(w: World, p: Addr)
    requires Live(w, p) && w.nodes[p].phase == InCs && !w.nodes[p].releasing
    ensures Taken(w, [Step.Collect(p), Step.Clear(p)]) == Some(Released(w, p)) && Live(Released(w, p), p)
    ensures Released(w, p).nodes[p] == ReleaseCs(w.nodes[p])
    ensures Released(w, p).net == w.net && Released(w, p).next == w.next + 2
  {
    TakenThen(w, [], w, Step.Collect(p));
    TakenThen(w, [] + [Step.Collect(p)], Next(w, Step.Collect(p)), Step.Clear(p));
    assert [] + [Step.Collect(p)] + [Step.Clear(p)] == [Step.Collect(p), Step.Clear(p)];
  }

  lemma ReplyTaken(w: World, before: seq<Step>, p: Addr, init: seq<Addr>, q: Addr, u: World)
    requires Taken(w, before + Replies(p, init)) == Some(u) && Enabled(u, FlushReply(p, q))
    ensures Taken(w, before + Replies(p, init + [q])) == Some(Next(u, FlushReply(p, q)))
  {
    TakenThen(w, before + Replies(p, init), u, FlushReply(p, q));
    assert before + Replies(p, init) + [FlushReply(p, q)] == before + Replies(p, init + [q]);
  }

  lemma {:induction false} ReleaseStepsTaken(w: World, p: Addr, order: seq<Addr>) returns (v: World)
    requires Live(w, p) && w.nodes[p].phase == InCs && !w.nodes[p].releasing
    requires forall q :: q in order ==> q in Released(w, p).nodes[p].owed
    requires forall i, j :: 0 <= i < j < |order| ==> order[i] != order[j]
    ensures Taken(w, [Step.Collect(p), Step.Clear(p)] + Replies(p, order)) == Some(v)
    ensures Flushed(Released(w, p), p, order, v)
  {
    var halves := [Step.Collect(p), Step.Clear(p)];
    if order == [] {
      HalvesAreSteps(w, p);
      v := Released(w, p);
      assert halves + Replies(p, order) == halves;
    } else {
      var init, q := order[..|order| - 1], order[|order| - 1];
      var u := ReleaseStepsTaken(w, p, init);
      assert q in order && q !in init;
      assert init + [q] == order;
      OneMoreReply(Released(w, p), p, init, q, u);
      ReplyTaken(w, halves, p, init, q, u);
      v := Next(u, FlushReply(p, q));
    }
  }

  /** Both halves of a release and then each iteration of its reply loop are enabled. Together they do
      what the peer's method does, and send one reply to each peer of the list, with successive stamps. */
  lemma ReleaseIsSteps(w: World, p: Addr, order: seq<Addr>) returns (v: World)
    requires Live(w, p) && w.nodes[p].phase == InCs && !w.nodes[p].releasing
    requires forall q :: q in order ==> q in w.nodes[p].deferred
    requires forall i, j :: 0 <= i < j < |order| ==> order[i] != order[j]
    ensures Taken(w, [Step.Collect(p), Step.Clear(p)] + Replies(p, order)) == Some(v)
    ensures Flushed(Released(w, p), p, order, v) && v.nodes[p] == FlushAll(ReleaseCs(w.nodes[p]), order)
  {
    HalvesAreSteps(w, p);
    v := ReleaseStepsTaken(w, p, order);
  }

  /* ---- Sending loops ---- */

  /** The copies of a send loop as messages. */
  function Written(copies: seq<Flooding.Copy>, id: nat, body: Body): set<Envelope> {
    set c | c in copies :: Env(id, c.from, c.to, body)
  }

  lemma LoopIsSent(copies: seq<Flooding.Copy>, p: Addr, to: set<Addr>, id: nat, body: Body)
    requires Flooding.Broadcasts(copies, p, BROADCAST_TTL, to)
    ensures Written(copies, id, body) == Copies(id, p, to, body)
  {
    var order :| Lists(order, to) && copies == Flooding.Forward(p, BROADCAST_TTL, order);
    forall q | q in to
      ensures Env(id, p, q, body) in Written(copies, id, body)
    {
      var k :| 0 <= k < |order| && order[k] == q;
      assert copies[k] in copies;
    }
  }

  /** The request command is the request step, followed by the entry of a peer that has nobody to ask; what
      it writes is what the steps send. */
  lemma RequestIsSteps(w: World, p: Addr, copies: seq<Flooding.Copy>) returns (v: World)
    requires Enabled(w, Request(p)) && w.nodes[p].phase == Idle
    requires Flooding.Broadcasts(copies, p, BROADCAST_TTL, RequestCs(w.nodes[p]).pending)
    ensures Taken(w, [Request(p)] + if w.nodes[p].neighbors == {} then [Step.Enter(p)] else []) == Some(v)
    ensures v.nodes[p] == RequestCs(w.nodes[p])
    ensures v.net == w.net + Written(copies, w.next, CsRequest(v.nodes[p].clock))
  {
    v := Next(w, Request(p));
    LoopIsSent(copies, p, RequestCs(w.nodes[p]).pending, w.next, CsRequest(v.nodes[p].clock));
    TakenThen(w, [], w, Request(p));
    assert [] + [Request(p)] == [Request(p)];
    if w.nodes[p].neighbors == {} {
      TakenThen(w, [Request(p)], v, Step.Enter(p));
      v := Next(v, Step.Enter(p));
    } else {
      assert [Request(p)] + [] == [Request(p)];
    }
  }

  /** The message of a command, broadcast by one send loop, as a step. */
  predicate Announces(w: World, p: Addr, message: Option<Payload>, copies: seq<Flooding.Copy>, below: Option<Step>)
    requires p in w.nodes
  {
    if message.None? then below.None?
    else
      && below.Some? && Enabled(w, below.value) && Actor(below.value) == p
      && Sent(w, below.value) == Written(copies, w.next, Data(w.nodes[p].clock + 1, message.value))
  }

  /** What the commit command does to the tables and writes is what the commit step does and sends. */
  lemma CommitIsStep(s: System, p: Addr, copies: seq<Flooding.Copy>)
    requires TxEnabled(s, CommitTx(p)) && Flooding.Broadcasts(copies, p, BROADCAST_TTL, s.w.nodes[p].neighbors)
    ensures var id := s.reps[p].current.value;
            && TxNext(s, CommitTx(p)).reps == s.reps[p := DoCommit(s.reps[p], id)]
            && Announces(s.w, p, CommitMessage(s.reps[p], id), copies, Below(s, CommitTx(p)))
  {
    var message := CommitMessage(s.reps[p], s.reps[p].current.value);
    if message.Some? {
      LoopIsSent(copies, p, s.w.nodes[p].neighbors, s.w.next, Data(s.w.nodes[p].clock + 1, message.value));
    }
  }

  /** The same for the abort command. */
  lemma AbortIsStep(s: System, p: Addr, copies: seq<Flooding.Copy>)
    requires TxEnabled(s, AbortTx(p)) && Flooding.Broadcasts(copies, p, BROADCAST_TTL, s.w.nodes[p].neighbors)
    ensures TxNext(s, AbortTx(p)).reps == s.reps[p := UserAbort(s.reps[p])]
    ensures Announces(s.w, p, AbortMessage(s.reps[p]), copies, Below(s, AbortTx(p)))
  {
    var message := AbortMessage(s.reps[p]);
    if message.Some? {
      LoopIsSent(copies, p, s.w.nodes[p].neighbors, s.w.next, Data(s.w.nodes[p].clock + 1, message.value));
    }
  }

  /* ---- Chats ---- */

  /** What the chat handler leaves in the log is what a step in which the peer hears the chat leaves. */
  lemma ChatIsHeard(w: Talk, p: Addr, chat: Chat, after: seq<Chat>)
    requires TalkEnabled(w, Hear(p, chat))
    requires var n := w.peers[p];
             after == if chat.room.None? || chat.room == n.room then StableSort(n.history + [chat]) else n.history
    ensures TalkNext(w, Hear(p, chat)).peers[p].history == after
    ensures multiset(after) == multiset(w.peers[p].history)
                               + if chat.room.None? || chat.room == w.peers[p].room then multiset{chat} else multiset{}
  {
    var n := w.peers[p];
    StableSortIsStable(n.history + [chat]);
  }

  /* ---- Floods ---- */

  /** What the flood handler of the addressee does to its log of ids and its neighbors, and the copies it
      writes, are those of a step that handles the copy. */
  lemma FloodIsHandled(f: Flooding.Flood, k: nat, copies: seq<Flooding.Copy>, known: bool) returns (order: seq<Addr>)
    requires k < |f.net| && f.net[k].to in f.neighbors && known == (f.net[k].to in f.seen)
    requires var c := f.net[k];
             if known then copies == [] else Flooding.Broadcasts(copies, c.to, c.ttl, f.neighbors[c.to] - {f.origin})
    ensures Flooding.FloodEnabled(f, Flooding.Handle(k, order))
    ensures var p, v := f.net[k].to, Flooding.FloodNext(f, Flooding.Handle(k, order));
            && v.net == f.net[..k] + f.net[k + 1..] + copies
            && v.seen == f.seen + {p}
            && p in v.neighbors && v.neighbors[p] == f.neighbors[p] + (if f.origin != p then {f.origin} else {})
            && (forall q :: q in f.neighbors && q != p ==> q in v.neighbors && v.neighbors[q] == f.neighbors[q])
  {
    var c := f.net[k];
    if known {
      order := SomeListing(f.neighbors[c.to] - {f.origin});
      assert f.net[..k] + f.net[k + 1..] + [] == f.net[..k] + f.net[k + 1..];
    } else {
      order :| Lists(order, f.neighbors[c.to] - {f.origin}) && copies == Flooding.Forward(c.to, c.ttl, order);
    }
  }
}
