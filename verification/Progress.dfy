/** Who can still get into the critical section: without further crashes, exactly the peers that no late
    deferral stands in the way of. */
module Progress {
  import opened Types
  import opened CriticalSection
  import opened MutexSystem
  import opened MutexInvariant
  import opened MutexTheorems
  import opened Deadlock

  /** j keeps i from entering for good: it has stranded i's request, or has a comparison that will. */
  ghost predicate Barred(w: World, i: Addr, j: Addr) {
    || Stranded(w, i, j)
    || (Live(w, i) && Live(w, j) && i != j && exists t :: t in w.nodes[j].tasks && LateAct(w, Act(j, t), i, j))
  }

  ghost predicate AtOrAhead(w: World, x: Addr, p: Addr) {
    && Live(w, x) && Live(w, p) && w.nodes[x].reqTs.Some? && w.nodes[p].reqTs.Some?
    && !Before(Prio(w.nodes[p]), Prio(w.nodes[x]))
  }

  /** Neither p nor a peer ahead of it is barred by anybody. */
  ghost predicate ClearWay(w: World, p: Addr) {
    forall x, y :: AtOrAhead(w, x, p) ==> !Barred(w, x, y)
  }

  ghost predicate IsCalmPath(us: seq<World>, ss: seq<Step>) {
    IsPath(us, ss) && forall k :: 0 <= k < |ss| ==> !ss[k].Crash?
  }

  /** v is reached from u by steps none of which is a crash. */
  ghost predicate CalmlyReaches(u: World, v: World) {
    exists us, ss :: IsCalmPath(us, ss) && us[0] == u && us[|ss|] == v
  }

  /* ---- A barred peer stays barred ---- */

  lemma BarredWaits(w: World, loc: Where, i: Addr, j: Addr)
    requires Inv(w, loc) && Barred(w, i, j)
    ensures Live(w, i) && Live(w, j) && i != j && Waits(w, i)
  {
    StrandedByPlace(w, loc, i, j);
    assert PairOk(w, i, j, loc(i, j));
    assert NodeOk(w.nodes[i], i, w.nodes.Keys, w.next);
    assert NodeOk(w.nodes[j], j, w.nodes.Keys, w.next);
  }

  lemma LateStays(w: World, s: Step, loc: Where, i: Addr, j: Addr, t: Task)
    requires Inv(w, loc) && Enabled(w, s) && !s.Crash? && Live(w, i) && Live(w, j) && i != j
    requires t in w.nodes[j].tasks && LateAct(w, Act(j, t), i, j) && s != Act(j, t)
    ensures t in Next(w, s).nodes[j].tasks && LateAct(Next(w, s), Act(j, t), i, j)
  {
    assert NodeOk(w.nodes[j], j, w.nodes.Keys, w.next);
  }

  lemma BarredStays(w: World, s: Step, loc: Where, i: Addr, j: Addr)
    requires Inv(w, loc) && Enabled(w, s) && !s.Crash? && Barred(w, i, j)
    ensures Barred(Next(w, s), i, j)
  {
    BarredWaits(w, loc, i, j);
    StrandedStep(w, s, loc, i, j);
    if !Stranded(w, i, j) {
      var t :| t in w.nodes[j].tasks && LateAct(w, Act(j, t), i, j);
      if s != Act(j, t) {
        LateStays(w, s, loc, i, j, t);
      }
    }
  }

  lemma WaiterKeepsRequest(w: World, s: Step, loc: Where, p: Addr)
    requires Inv(w, loc) && Enabled(w, s) && !s.Crash? && Waits(w, p)
    ensures Live(Next(w, s), p) && Next(w, s).nodes[p].reqTs == w.nodes[p].reqTs && w.nodes[p].reqTs.Some?
    ensures Next(w, s).nodes[p].me == w.nodes[p].me == p
    ensures Waits(Next(w, s), p) || Holds(Next(w, s), p)
  {
    assert NodeOk(w.nodes[p], p, w.nodes.Keys, w.next);
  }

  /** Behind a barred peer nobody enters. */
  lemma BlockedStep(w: World, s: Step, loc: Where, x: Addr, y: Addr, p: Addr) returns (loc': Where)
    requires Inv(w, loc) && Enabled(w, s) && !s.Crash? && Waits(w, p) && AtOrAhead(w, x, p) && Barred(w, x, y)
    ensures var v := Next(w, s); Inv(v, loc') && Waits(v, p) && AtOrAhead(v, x, p) && Barred(v, x, y)
  {
    var v := Next(w, s);
    loc' := StepKeepsInv(w, s, loc);
    BarredStays(w, s, loc, x, y);
    BarredWaits(w, loc, x, y);
    WaiterKeepsRequest(w, s, loc, x);
    WaiterKeepsRequest(w, s, loc, p);
    BarredWaits(v, loc', x, y);
    if Holds(v, p) {
      HolderIsForemost(v, loc', p);
    }
  }

  lemma {:induction false} BlockedPath(us: seq<World>, ss: seq<Step>, k: nat, start: Where, x: Addr, y: Addr, p: Addr)
    returns (loc: Where)
    requires IsCalmPath(us, ss) && k < |us|
    requires Inv(us[0], start) && Waits(us[0], p) && AtOrAhead(us[0], x, p) && Barred(us[0], x, y)
    ensures Inv(us[k], loc) && Waits(us[k], p) && AtOrAhead(us[k], x, p) && Barred(us[k], x, y)
  {
    if k == 0 {
      loc := start;
    } else {
      var before := BlockedPath(us, ss, k - 1, start, x, y, p);
      assert StepAt(us, ss, k - 1);
      loc := BlockedStep(us[k - 1], ss[k - 1], before, x, y, p);
    }
  }

  /* ---- What is left to happen without new requests ---- */

  function WaitingTasks(n: Cs): set<Task> {
    set t | t in n.tasks && t.Waiting?
  }

  function LoadedTasks(n: Cs): set<Task> {
    set t | t in n.tasks && t.Loaded?
  }

  /** What a peer has to do still: each request on its way from arrival to answer, and each phase. */
  function Weight(n: Cs): nat {
    (match n.phase
     case Requesting => 3
     case InCs => 2
     case Idle => if n.releasing then 1 else 0)
    + |n.pending| + (if n.releasing then 0 else 3 * |n.deferred|) + 2 * |n.owed|
    + 5 * |WaitingTasks(n)| + 4 * |LoadedTasks(n)|
  }

  function RequestsTo(w: World): set<Envelope> {
    set e | e in w.net && e.body.CsRequest? && Live(w, e.to)
  }

  function RepliesTo(w: World): set<Envelope> {
    set e | e in w.net && e.body.CsReply? && Live(w, e.to)
  }

  ghost function Total(nodes: map<Addr, Cs>, s: set<Addr>): nat
    requires s <= nodes.Keys
  {
    if s == {} then 0
    else
      assert exists p :: p in s by { var p := SomeMember(s); }
      var p :| p in s;
      Weight(nodes[p]) + Total(nodes, s - {p})
  }

  lemma {:induction false} TotalWithout(nodes: map<Addr, Cs>, s: set<Addr>, q: Addr)
    requires s <= nodes.Keys && q in s
    ensures Total(nodes, s) == Weight(nodes[q]) + Total(nodes, s - {q})
    decreases s
  {
    var p :| p in s && Total(nodes, s) == Weight(nodes[p]) + Total(nodes, s - {p});
    if p != q {
      TotalWithout(nodes, s - {p}, q);
      TotalWithout(nodes, s - {q}, p);
      assert s - {p} - {q} == s - {q} - {p};
    }
  }

  lemma {:induction false} TotalElsewhere(nodes: map<Addr, Cs>, nodes': map<Addr, Cs>, s: set<Addr>)
    requires s <= nodes.Keys && s <= nodes'.Keys && forall p :: p in s ==> nodes[p] == nodes'[p]
    ensures Total(nodes, s) == Total(nodes', s)
    decreases s
  {
    if s != {} {
      var p := SomeMember(s);
      TotalWithout(nodes, s, p);
      TotalWithout(nodes', s, p);
      TotalElsewhere(nodes, nodes', s - {p});
    }
  }

  ghost function ToDo(w: World): nat {
    Total(w.nodes, w.nodes.Keys - w.dead) + 6 * |RequestsTo(w)| + |RepliesTo(w)|
  }

  /** A step of p gets something done if it does so for p and the messages. */
  lemma LocalProgress(w: World, s: Step)
    requires Enabled(w, s) && !s.Crash?
    requires var v, p := Next(w, s), Actor(s);
             Weight(v.nodes[p]) + 6 * |RequestsTo(v)| + |RepliesTo(v)|
             < Weight(w.nodes[p]) + 6 * |RequestsTo(w)| + |RepliesTo(w)|
    ensures ToDo(Next(w, s)) < ToDo(w)
  {
    var v, p := Next(w, s), Actor(s);
    var live := w.nodes.Keys - w.dead;
    assert v.nodes.Keys == w.nodes.Keys;
    TotalWithout(w.nodes, live, p);
    TotalWithout(v.nodes, live, p);
    TotalElsewhere(w.nodes, v.nodes, live - {p});
  }

  lemma NoMore<T>(a: set<T>, b: set<T>)
    requires a <= b
    ensures |a| <= |b|
  {
    assert b == a + (b - a);
  }

  /** The sizes of what a step leaves, against what there was. */
  lemma SameMessages(w: World, s: Step)
    requires Enabled(w, s) && !s.Crash? && Sent(w, s) == {} && Consumed(s) == {}
    ensures RequestsTo(Next(w, s)) == RequestsTo(w) && RepliesTo(Next(w, s)) == RepliesTo(w)
  {
  }

  lemma OneReplyMore(w: World, v: World, e: Envelope)
    requires v.nodes.Keys == w.nodes.Keys && v.dead == w.dead && v.net == w.net + {e} && e.body.CsReply?
    ensures RequestsTo(v) == RequestsTo(w) && |RepliesTo(v)| <= |RepliesTo(w)| + 1
  {
    NoMore(RepliesTo(v), RepliesTo(w) + {e});
  }

  lemma OneReplyLess(w: World, v: World, e: Envelope)
    requires v.nodes.Keys == w.nodes.Keys && v.dead == w.dead && v.net == w.net - {e}
    requires e in w.net && e.body.CsReply? && Live(w, e.to)
    ensures RequestsTo(v) == RequestsTo(w) && |RepliesTo(v)| == |RepliesTo(w)| - 1
  {
    assert RepliesTo(v) == RepliesTo(w) - {e};
  }

  lemma LoadDoesSomething(w: World, p: Addr, t: Task)
    requires Enabled(w, Load(p, t))
    ensures ToDo(Next(w, Load(p, t))) < ToDo(w)
  {
    var n, m := w.nodes[p], LoadTs(w.nodes[p], t);
    SameMessages(w, Load(p, t));
    assert WaitingTasks(m) == WaitingTasks(n) - {t};
    NoMore(LoadedTasks(m), LoadedTasks(n) + {Loaded(t.id, t.from, t.ts, n.reqTs)});
    LocalProgress(w, Load(p, t));
  }

  lemma ActedTasks(n: Cs, t: Task)
    requires t in n.tasks && t.Loaded?
    ensures var m := ActOn(n, t);
            WaitingTasks(m) == WaitingTasks(n) && |LoadedTasks(m)| == |LoadedTasks(n)| - 1 && |m.deferred| <= |n.deferred| + 1
  {
    var m := ActOn(n, t);
    assert LoadedTasks(m) == LoadedTasks(n) - {t};
    NoMore(m.deferred, n.deferred + {t.from});
  }

  lemma AnswerDoesSomething(w: World, p: Addr, t: Task)
    requires Enabled(w, Act(p, t)) && Wins(t, w.nodes[p].me)
    ensures ToDo(Next(w, Act(p, t))) < ToDo(w)
  {
    var v := Next(w, Act(p, t));
    ActedTasks(w.nodes[p], t);
    OneReplyMore(w, v, Env(w.next, p, t.from, CsReply(v.nodes[p].clock)));
    LocalProgress(w, Act(p, t));
  }

  lemma DeferralDoesSomething(w: World, p: Addr, t: Task)
    requires Enabled(w, Act(p, t)) && !Wins(t, w.nodes[p].me)
    ensures ToDo(Next(w, Act(p, t))) < ToDo(w)
  {
    ActedTasks(w.nodes[p], t);
    SameMessages(w, Act(p, t));
    LocalProgress(w, Act(p, t));
  }

  lemma ClearDoesSomething(w: World, p: Addr)
    requires Enabled(w, Step.Clear(p)) && w.nodes[p].phase == Idle
    ensures ToDo(Next(w, Step.Clear(p))) < ToDo(w)
  {
    SameMessages(w, Step.Clear(p));
    assert WaitingTasks(CriticalSection.Clear(w.nodes[p])) == WaitingTasks(w.nodes[p]);
    assert LoadedTasks(CriticalSection.Clear(w.nodes[p])) == LoadedTasks(w.nodes[p]);
    LocalProgress(w, Step.Clear(p));
  }

  lemma CollectDoesSomething(w: World, p: Addr)
    requires Enabled(w, Step.Collect(p)) && w.nodes[p].phase == InCs
    ensures ToDo(Next(w, Step.Collect(p))) < ToDo(w)
  {
    var n, m := w.nodes[p], CriticalSection.Collect(w.nodes[p]);
    SameMessages(w, Step.Collect(p));
    assert WaitingTasks(m) == WaitingTasks(n) && LoadedTasks(m) == LoadedTasks(n);
    LocalProgress(w, Step.Collect(p));
  }

  lemma FlushDoesSomething(w: World, p: Addr, q: Addr)
    requires Enabled(w, FlushReply(p, q))
    ensures ToDo(Next(w, FlushReply(p, q))) < ToDo(w)
  {
    var n, m := w.nodes[p], Flush(w.nodes[p], q);
    OneReplyMore(w, Next(w, FlushReply(p, q)), Env(w.next, p, q, CsReply(m.clock)));
    assert WaitingTasks(m) == WaitingTasks(n) && LoadedTasks(m) == LoadedTasks(n);
    LocalProgress(w, FlushReply(p, q));
  }

  lemma EnterDoesSomething(w: World, p: Addr)
    requires Enabled(w, Step.Enter(p))
    ensures ToDo(Next(w, Step.Enter(p))) < ToDo(w)
  {
    var n, m := w.nodes[p], EnterAlone(w.nodes[p]);
    SameMessages(w, Step.Enter(p));
    assert WaitingTasks(m) == WaitingTasks(n) && LoadedTasks(m) == LoadedTasks(n);
    LocalProgress(w, Step.Enter(p));
  }

  lemma DetectDoesSomething(w: World, p: Addr, d: Addr)
    requires Enabled(w, Detect(p, d)) && d in w.nodes[p].pending && w.nodes[p].phase == Requesting
    ensures ToDo(Next(w, Detect(p, d))) < ToDo(w)
  {
    var n, m := w.nodes[p], DropPeer(w.nodes[p], d);
    SameMessages(w, Detect(p, d));
    assert m.pending == n.pending - {d};
    assert WaitingTasks(m) == WaitingTasks(n) && LoadedTasks(m) == LoadedTasks(n);
    LocalProgress(w, Detect(p, d));
  }

  lemma ReplyWeight(n: Cs, e: Envelope)
    ensures Weight(TakeReply(Arrive(n, e), e.from)) <= Weight(n) && Weight(Arrive(n, e)) == Weight(n)
  {
    var a := Arrive(n, e);
    var m := TakeReply(a, e.from);
    assert WaitingTasks(a) == WaitingTasks(n) && LoadedTasks(a) == LoadedTasks(n);
    assert WaitingTasks(m) == WaitingTasks(n) && LoadedTasks(m) == LoadedTasks(n);
    NoMore(m.pending, n.pending);
  }

  lemma ReplyDoesSomething(w: World, e: Envelope)
    requires Enabled(w, Receive(e)) && e.body.CsReply?
    ensures ToDo(Next(w, Receive(e))) < ToDo(w)
  {
    OneReplyLess(w, Next(w, Receive(e)), e);
    ReplyWeight(w.nodes[e.to], e);
    LocalProgress(w, Receive(e));
  }

  lemma RequestWeight(n: Cs, e: Envelope, ts: int)
    requires !n.releasing
    ensures Weight(TakeRequest(Arrive(n, e), e.id, e.from, ts)) <= Weight(n) + (if n.phase == Idle then 0 else 5)
    ensures Weight(Arrive(n, e)) == Weight(n)
  {
    var a := Arrive(n, e);
    var m := TakeRequest(a, e.id, e.from, ts);
    assert WaitingTasks(a) == WaitingTasks(n) && LoadedTasks(a) == LoadedTasks(n);
    assert LoadedTasks(m) == LoadedTasks(n);
    if n.phase == Requesting {
      NoMore(WaitingTasks(m), WaitingTasks(n) + {Waiting(e.id, e.from, ts)});
    } else {
      assert WaitingTasks(m) == WaitingTasks(n);
      NoMore(m.deferred, n.deferred + {e.from});
    }
  }

  lemma OneRequestLess(w: World, e: Envelope)
    requires Enabled(w, Receive(e)) && e.body.CsRequest?
    ensures var v := Next(w, Receive(e));
            && |RequestsTo(v)| == |RequestsTo(w)| - 1
            && |RepliesTo(v)| <= |RepliesTo(w)| + (if w.nodes[e.to].phase == Idle then 1 else 0)
  {
    var v := Next(w, Receive(e));
    assert RequestsTo(v) == RequestsTo(w) - {e};
    if w.nodes[e.to].phase == Idle {
      NoMore(RepliesTo(v), RepliesTo(w) + {Env(w.next, e.to, e.from, CsReply(v.nodes[e.to].clock))});
    } else {
      assert RepliesTo(v) == RepliesTo(w);
    }
  }

  lemma RequestDoesSomething(w: World, e: Envelope)
    requires Enabled(w, Receive(e)) && e.body.CsRequest? && !w.nodes[e.to].releasing
    ensures ToDo(Next(w, Receive(e))) < ToDo(w)
  {
    OneRequestLess(w, e);
    RequestWeight(w.nodes[e.to], e, e.body.ts);
    LocalProgress(w, Receive(e));
  }

  /* ---- A schedule that drains the system ---- */

  /** No new request, no crash, and no release of a peer that has a loaded comparison. */
  ghost predicate Draining(w: World, s: Step)
    requires Enabled(w, s)
  {
    && !s.Request? && !s.Crash?
    && (s.Collect? ==> LoadedTasks(w.nodes[s.p]) == {})
  }

  /** Such a step bars nobody anew. */
  lemma NobodyNewlyBarred(w: World, s: Step, loc: Where, i: Addr, j: Addr)
    requires Inv(w, loc) && Enabled(w, s) && Draining(w, s) && Barred(Next(w, s), i, j)
    ensures Barred(w, i, j)
  {
    var v := Next(w, s);
    assert Live(w, i) && Live(w, j) && i != j;
    StrandedStep(w, s, loc, i, j);
    if Stranded(v, i, j) && !Stranded(w, i, j) {
      assert s.t in w.nodes[j].tasks && LateAct(w, Act(j, s.t), i, j);
    } else if !Stranded(v, i, j) {
      var t :| t in v.nodes[j].tasks && LateAct(v, Act(j, t), i, j);
      LateBeforeDraining(w, s, i, j, t);
    }
  }

  lemma LateBeforeDraining(w: World, s: Step, i: Addr, j: Addr, t: Task)
    requires Enabled(w, s) && Draining(w, s) && j in w.nodes
    requires t in Next(w, s).nodes[j].tasks && LateAct(Next(w, s), Act(j, t), i, j)
    ensures t in w.nodes[j].tasks && LateAct(w, Act(j, t), i, j)
  {
    assert t.Loaded? && t in w.nodes[j].tasks ==> t in LoadedTasks(w.nodes[j]);
  }

  lemma WayStaysClear(w: World, s: Step, loc: Where, p: Addr)
    requires Inv(w, loc) && Enabled(w, s) && Draining(w, s) && Waits(w, p) && ClearWay(w, p)
    ensures ClearWay(Next(w, s), p)
  {
    var v := Next(w, s);
    WaiterKeepsRequest(w, s, loc, p);
    forall x, y | AtOrAhead(v, x, p)
      ensures !Barred(v, x, y)
    {
      OldRequestOnly(w, s, x);
      if Barred(v, x, y) {
        NobodyNewlyBarred(w, s, loc, x, y);
      }
    }
  }

  lemma OldRequestOnly(w: World, s: Step, x: Addr)
    requires Enabled(w, s) && Draining(w, s) && Live(Next(w, s), x) && Next(w, s).nodes[x].reqTs.Some?
    ensures Live(w, x) && Next(w, s).nodes[x].reqTs == w.nodes[x].reqTs && Next(w, s).nodes[x].me == w.nodes[x].me
  {
  }

  /** The step is in order and gets something done. */
  ghost predicate Drains(w: World, s: Step) {
    Enabled(w, s) && Draining(w, s) && ToDo(Next(w, s)) < ToDo(w)
  }

  /** Comparisons and releases come first. */
  lemma LocalWork(w: World, loc: Where, p: Addr) returns (s: Step)
    requires Inv(w, loc) && Live(w, p)
    requires w.nodes[p].tasks != {} || w.nodes[p].releasing || w.nodes[p].phase == InCs
    ensures Drains(w, s)
  {
    var n := w.nodes[p];
    assert NodeOk(n, p, w.nodes.Keys, w.next);
    if t :| t in n.tasks && t.Loaded? {
      s := Act(p, t);
      if Wins(t, n.me) {
        AnswerDoesSomething(w, p, t);
      } else {
        DeferralDoesSomething(w, p, t);
      }
    } else if t :| t in n.tasks && t.Waiting? {
      s := Load(p, t);
      LoadDoesSomething(w, p, t);
    } else if n.releasing {
      s := Step.Clear(p);
      ClearDoesSomething(w, p);
    } else {
      assert forall t :: t !in n.tasks;
      assert n.tasks == {};
      s := Step.Collect(p);
      CollectDoesSomething(w, p);
    }
  }

  lemma WaitingWork(w: World, loc: Where, p: Addr) returns (s: Step)
    requires Inv(w, loc) && Live(w, p) && !w.nodes[p].releasing
    requires var n := w.nodes[p];
             n.owed != {} || (n.phase == Requesting && n.pending == {}) || !(n.pending !! w.dead)
    ensures Drains(w, s)
  {
    var n := w.nodes[p];
    assert NodeOk(n, p, w.nodes.Keys, w.next);
    if n.owed != {} {
      var q := SomeMember(n.owed);
      s := FlushReply(p, q);
      FlushDoesSomething(w, p, q);
    } else if n.phase == Requesting && n.pending == {} {
      s := Step.Enter(p);
      EnterDoesSomething(w, p);
    } else {
      var d := SomeMember(n.pending * w.dead);
      s := Detect(p, d);
      DetectDoesSomething(w, p, d);
    }
  }

  lemma MessageWork(w: World, e: Envelope) returns (s: Step)
    requires e in w.net && Live(w, e.to) && !w.nodes[e.to].releasing && !e.body.Data?
    ensures Drains(w, s)
  {
    s := Receive(e);
    if e.body.CsReply? {
      ReplyDoesSomething(w, e);
    } else {
      RequestDoesSomething(w, e);
    }
  }

  /** Unless everything has settled, something can be done. */
  lemma WorkLeft(w: World, loc: Where) returns (s: Step)
    requires Inv(w, loc) && !Settled(w)
    ensures Drains(w, s)
  {
    if p :| Live(w, p) && (w.nodes[p].tasks != {} || w.nodes[p].releasing || w.nodes[p].phase == InCs) {
      s := LocalWork(w, loc, p);
    } else if p :| Live(w, p) && (w.nodes[p].owed != {} || (w.nodes[p].phase == Requesting && w.nodes[p].pending == {})
                                  || !(w.nodes[p].pending !! w.dead)) {
      s := WaitingWork(w, loc, p);
    } else {
      var e :| e in w.net && Live(w, e.from) && Live(w, e.to) && !e.body.Data?;
      s := MessageWork(w, e);
    }
  }

  lemma ReachesFurther(u: World, v: World, s: Step)
    requires CalmlyReaches(u, v) && Enabled(v, s) && !s.Crash?
    ensures CalmlyReaches(u, Next(v, s))
  {
    var us, ss :| IsCalmPath(us, ss) && us[0] == u && us[|ss|] == v;
    PathExtends(us, ss, s);
    var longer, steps := us + [Next(v, s)], ss + [s];
    assert longer[0] == u && longer[|steps|] == Next(v, s);
    assert IsCalmPath(longer, steps);
  }

  /** In a settled state a waiting peer is behind a stranded one, or stranded itself. */
  lemma SettledMeansBarred(w: World, loc: Where, p: Addr)
    requires Inv(w, loc) && Settled(w) && Waits(w, p)
    ensures !ClearWay(w, p)
  {
    var i, j := StuckMeansStranded(w, loc, p);
    assert AtOrAhead(w, i, p) && Barred(w, i, j);
  }

  lemma {:induction false} Drained(u: World, w: World, loc: Where, p: Addr) returns (v: World)
    requires CalmlyReaches(u, w) && Inv(w, loc) && Waits(w, p) && ClearWay(w, p)
    ensures CalmlyReaches(u, v) && Holds(v, p)
    decreases ToDo(w)
  {
    if Settled(w) {
      SettledMeansBarred(w, loc, p);
    }
    var s := WorkLeft(w, loc);
    v := Next(w, s);
    ReachesFurther(u, w, s);
    WaiterKeepsRequest(w, s, loc, p);
    if !Holds(v, p) {
      WayStaysClear(w, s, loc, p);
      var loc' := StepKeepsInv(w, s, loc);
      v := Drained(u, v, loc', p);
    }
  }

  /** Without further crashes a waiting peer can still enter if and only if no late deferral, made or bound to
      be made, stands in its way: none of its own request, and none of a request ahead of it. */
  lemma CanEnterIffClearWay(ws: seq<World>, ss: seq<Step>, k: nat, p: Addr)
    requires IsRun(ws, ss) && k < |ws| && Waits(ws[k], p)
    ensures (exists v :: CalmlyReaches(ws[k], v) && Holds(v, p)) <==> ClearWay(ws[k], p)
  {
    var u := ws[k];
    var loc := RunInv(ws, ss, k);
    if ClearWay(u, p) {
      assert IsCalmPath([u], []);
      assert CalmlyReaches(u, u);
      var v := Drained(u, u, loc, p);
    } else if v :| CalmlyReaches(u, v) && Holds(v, p) {
      var x, y :| AtOrAhead(u, x, p) && Barred(u, x, y);
      var us, ts :| IsCalmPath(us, ts) && us[0] == u && us[|ts|] == v;
      var end := BlockedPath(us, ts, |ts|, loc, x, y, p);
    }
  }
}
