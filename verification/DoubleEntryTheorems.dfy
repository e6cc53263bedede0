/** The condition for two peers to come to be in at once is met only if they can, and whenever they can. */
module DoubleEntryTheorems {
  import opened Types
  import opened CriticalSection
  import opened MutexSystem
  import opened MutexInvariant
  import opened MutexTheorems
  import opened Suspicion
  import opened DoubleEntry

  /* ---- How to get there ---- */

  /** v is reached from u, with q's permission for d at l. */
  ghost predicate Along(u: World, v: World, l: Loc, q: Addr, d: Addr) {
    Reaches(u, q, v) && Engages(v, l, q, d)
  }

  lemma ReachesItself(u: World, q: Addr)
    requires q in u.nodes
    ensures Reaches(u, q, u)
  {
    assert Continues([u], [], q);
  }

  lemma ReachesFurther(u: World, q: Addr, v: World, s: Step)
    requires Reaches(u, q, v) && Enabled(v, s) && q in v.nodes && Next(v, s).nodes[q].reqTs == v.nodes[q].reqTs
    ensures Reaches(u, q, Next(v, s))
  {
    var us, ss :| Continues(us, ss, q) && us[0] == u && us[|ss|] == v;
    var longer := us + [Next(v, s)];
    PathExtends(us, ss, s);
    assert forall k :: 0 <= k < |longer| ==> longer[k] == if k < |us| then us[k] else Next(v, s);
    assert Continues(longer, ss + [s], q);
  }

  lemma OneFurther(u: World, v: World, l: Loc, q: Addr, d: Addr, s: Step) returns (v': World, l': Loc)
    requires Along(u, v, l, q, d) && Enabled(v, s) && Live(Next(v, s), q) && Live(Next(v, s), d)
    requires Next(v, s).nodes[q].reqTs == v.nodes[q].reqTs
    ensures v' == Next(v, s) && Along(u, v', l', q, d) && l' == Moved(v, s, d, q, l)
  {
    v' := Next(v, s);
    l' := StaysEngaged(v, l, q, d, s);
    ReachesFurther(u, q, v, s);
  }

  /** q awaits no vote of d, or the reply r of d can be delivered to it. */
  predicate Ready(v: World, q: Addr, d: Addr, r: Envelope)
    requires q in v.nodes
  {
    d !in v.nodes[q].pending || (r in v.net && r.from == d && r.to == q && r.body.CsReply?)
  }

  /* ---- From the permission to the entry ---- */

  /** All others crash. */
  lemma {:induction false} OthersCrash(u: World, v: World, l: Loc, q: Addr, d: Addr) returns (v': World)
    requires Along(u, v, l, q, d)
    ensures Along(u, v', l, q, d) && v'.nodes == v.nodes && v'.net == v.net
    ensures v'.nodes.Keys - {q, d} <= v'.dead
    decreases v.nodes.Keys - {q, d} - v.dead
  {
    v' := v;
    var others := v.nodes.Keys - {q, d} - v.dead;
    if others != {} {
      var r := SomeMember(others);
      var v1, l1 := OneFurther(u, v, l, q, d, Crash(r, {}));
      assert r in others && r !in v1.nodes.Keys - {q, d} - v1.dead;
      assert v1.nodes == v.nodes;
      v' := OthersCrash(u, v1, l1, q, d);
    } else {
      assert forall r :: r in v.nodes.Keys - {q, d} && r !in v.dead ==> r in others;
    }
  }

  /** x has the other's vote or does not await it. */
  predicate Alone(v: World, l: Loc, q: Addr, d: Addr, x: Addr)
    requires q in v.nodes
  {
    && v.nodes.Keys - {q, d} <= v.dead
    && ((x == d && l.Granted?) || (x == q && d !in v.nodes[q].pending))
  }

  /** v' differs from v in what x awaits and knows, and in whether it is in. */
  predicate OnlyWaiting(v: World, v': World, x: Addr)
    requires x in v.nodes
  {
    && v'.net == v.net && v'.dead == v.dead && v'.nodes.Keys == v.nodes.Keys
    && (forall p :: p in v.nodes && p != x ==> v'.nodes[p] == v.nodes[p])
    && v'.nodes[x] == v.nodes[x].(pending := v'.nodes[x].pending, neighbors := v'.nodes[x].neighbors, phase := v'.nodes[x].phase)
  }

  /** Alone with the other, x awaits dead peers only, and notices one. */
  lemma NoticesOne(u: World, v: World, l: Loc, q: Addr, d: Addr, x: Addr) returns (v': World)
    requires Along(u, v, l, q, d) && Alone(v, l, q, d, x) && v.nodes[x].pending != {}
    ensures Along(u, v', l, q, d) && Alone(v', l, q, d, x) && v'.nodes[x].pending < v.nodes[x].pending
    ensures OnlyWaiting(v, v', x) && Engaged(v'.nodes[x])
  {
    Facts(v, l, q, d);
    var r := SomeMember(v.nodes[x].pending);
    assert r in v.nodes.Keys - {q, d};
    var l1;
    v', l1 := OneFurther(u, v, l, q, d, Detect(x, r));
    assert v'.nodes[x].pending == v.nodes[x].pending - {r};
  }

  /** So it enters in the end, and nothing else changes. */
  lemma {:induction false} NoticesAll(u: World, v: World, l: Loc, q: Addr, d: Addr, x: Addr) returns (v': World)
    requires Along(u, v, l, q, d) && Alone(v, l, q, d, x) && Engaged(v.nodes[x])
    ensures Along(u, v', l, q, d) && Holds(v', x) && OnlyWaiting(v, v', x) && (x == q ==> d !in v'.nodes[q].pending)
    decreases v.nodes[x].pending
  {
    v' := v;
    if v.nodes[x].pending != {} {
      var v1 := NoticesOne(u, v, l, q, d, x);
      v' := NoticesAll(u, v1, l, q, d, x);
    } else if v.nodes[x].phase == Requesting {
      Facts(v, l, q, d);
      var l1;
      v', l1 := OneFurther(u, v, l, q, d, Enter(x));
    }
  }

  lemma HolderEnters(u: World, v: World, l: Loc, q: Addr, d: Addr) returns (v': World)
    requires Along(u, v, l, q, d) && l.Granted?
    ensures Along(u, v', l, q, d) && Holds(v', d) && v'.nodes.Keys - {q, d} <= v'.dead
    ensures v'.net == v.net && v'.nodes[q] == v.nodes[q] && v'.nodes[d].clock == v.nodes[d].clock
    ensures v'.nodes[d].deferred == v.nodes[d].deferred && v'.nodes[d].tasks == v.nodes[d].tasks
  {
    Facts(v, l, q, d);
    var v1 := OthersCrash(u, v, l, q, d);
    v' := NoticesAll(u, v1, l, q, d, d);
  }

  lemma VoteArrives(u: World, v: World, l: Loc, q: Addr, d: Addr, r: Envelope) returns (v': World)
    requires Along(u, v, l, q, d) && Ready(v, q, d, r)
    ensures Along(u, v', l, q, d) && d !in v'.nodes[q].pending
  {
    v' := v;
    if d in v.nodes[q].pending {
      Facts(v, l, q, d);
      var l1;
      v', l1 := OneFurther(u, v, l, q, d, Receive(r));
    }
  }

  lemma BothEnter(u: World, v: World, l: Loc, q: Addr, d: Addr, r: Envelope) returns (v': World)
    requires Along(u, v, l, q, d) && l.Granted? && Ready(v, q, d, r)
    ensures Reaches(u, q, v') && Holds(v', q) && Holds(v', d)
  {
    var v1 := VoteArrives(u, v, l, q, d, r);
    var v2 := HolderEnters(u, v1, l, q, d);
    Facts(v2, l, q, d);
    v' := NoticesAll(u, v2, l, q, d, q);
  }

  /* ---- From the danger to the permission ---- */

  /** The reply arrives; a reply r of d stays in flight meanwhile, here and below. */
  lemma FromAnswered(u: World, v: World, l: Loc, q: Addr, d: Addr, r: Envelope) returns (v': World, l': Loc)
    requires Along(u, v, l, q, d) && l.Answered?
    ensures Along(u, v', l', q, d) && l'.Granted? && (Ready(v, q, d, r) ==> Ready(v', q, d, r))
  {
    Facts(v, l, q, d);
    v', l' := OneFurther(u, v, l, q, d, Receive(Env(l.id, q, d, CsReply(l.lam))));
  }

  lemma FromOwed(u: World, v: World, l: Loc, q: Addr, d: Addr, r: Envelope) returns (v': World, l': Loc)
    requires Along(u, v, l, q, d) && l.Owed?
    ensures Along(u, v', l', q, d) && l'.Granted? && (Ready(v, q, d, r) ==> Ready(v', q, d, r))
  {
    Facts(v, l, q, d);
    var v1, l1 := OneFurther(u, v, l, q, d, FlushReply(q, d));
    v', l' := FromAnswered(u, v1, l1, q, d, r);
  }

  lemma FromLoaded(u: World, v: World, l: Loc, q: Addr, d: Addr, r: Envelope, t: Task) returns (v': World, l': Loc)
    requires Along(u, v, l, q, d) && t in v.nodes[q].tasks && t.from == d && t.Loaded? && Wins(t, v.nodes[q].me)
    ensures Along(u, v', l', q, d) && l'.Granted? && (Ready(v, q, d, r) ==> Ready(v', q, d, r))
  {
    Facts(v, l, q, d);
    var v1, l1 := OneFurther(u, v, l, q, d, Act(q, t));
    v', l' := FromAnswered(u, v1, l1, q, d, r);
  }

  lemma FromWeighed(u: World, v: World, l: Loc, q: Addr, d: Addr, r: Envelope, t: Task) returns (v': World, l': Loc)
    requires Along(u, v, l, q, d) && t in v.nodes[q].tasks && t.from == d && WillAnswer(t, v.nodes[q])
    ensures Along(u, v', l', q, d) && l'.Granted? && (Ready(v, q, d, r) ==> Ready(v', q, d, r))
  {
    Facts(v, l, q, d);
    if t.Loaded? {
      v', l' := FromLoaded(u, v, l, q, d, r, t);
    } else {
      var v1, l1 := OneFurther(u, v, l, q, d, Load(q, t));
      v', l' := FromLoaded(u, v1, l1, q, d, r, Loaded(t.id, t.from, t.ts, v.nodes[q].reqTs));
    }
  }

  lemma FromAsked(u: World, v: World, l: Loc, q: Addr, d: Addr, r: Envelope) returns (v': World, l': Loc)
    requires Along(u, v, l, q, d) && l.Asked? && Threat(v, q, d, l)
    ensures Along(u, v', l', q, d) && l'.Granted? && (Ready(v, q, d, r) ==> Ready(v', q, d, r))
  {
    Facts(v, l, q, d);
    var ts := v.nodes[d].reqTs.value;
    var v1, l1 := OneFurther(u, v, l, q, d, Receive(Env(l.id, d, q, CsRequest(ts))));
    v', l' := FromWeighed(u, v1, l1, q, d, r, Waiting(l.id, d, ts));
  }

  /** An idle d that can ask ahead of q does so; nothing else that matters here changes. */
  lemma AsksAhead(u: World, v: World, l: Loc, q: Addr, d: Addr) returns (v': World, l': Loc)
    requires Along(u, v, l, q, d) && l.Free? && Threat(v, q, d, l)
    ensures Along(u, v', l', q, d) && l'.Asked? && Threat(v', q, d, l')
    ensures v'.nodes[q] == v.nodes[q] && v.net <= v'.net && !v'.nodes[d].releasing && v'.nodes[d].phase == Requesting
    ensures v'.nodes[d].owed == v.nodes[d].owed && v'.nodes[d].tasks == v.nodes[d].tasks
    ensures v'.nodes[d].reqTs == Some(v.nodes[d].clock + 1) && v'.nodes[d].me == d
  {
    Facts(v, l, q, d);
    var v1, l1 := v, l;
    if v.nodes[d].releasing {
      v1, l1 := OneFurther(u, v, l, q, d, Step.Clear(d));
    }
    v', l' := OneFurther(u, v1, l1, q, d, Request(d));
    Facts(v', l', q, d);
  }

  lemma GetsPermission(u: World, v: World, l: Loc, q: Addr, d: Addr, r: Envelope) returns (v': World, l': Loc)
    requires Along(u, v, l, q, d) && Threat(v, q, d, l)
    ensures Along(u, v', l', q, d) && l'.Granted? && (Ready(v, q, d, r) ==> Ready(v', q, d, r))
  {
    match l
    case Free =>
      var v1, l1 := AsksAhead(u, v, l, q, d);
      v', l' := FromAsked(u, v1, l1, q, d, r);
    case Asked(_) => v', l' := FromAsked(u, v, l, q, d, r);
    case Weighed(_) =>
      var t :| t in v.nodes[q].tasks && t.from == d && WillAnswer(t, v.nodes[q]);
      v', l' := FromWeighed(u, v, l, q, d, r, t);
    case Owed => v', l' := FromOwed(u, v, l, q, d, r);
    case Answered(_, _) => v', l' := FromAnswered(u, v, l, q, d, r);
    case Granted => v', l' := v, l;
  }

  /* ---- From a vote that will come to a reply in flight ---- */

  /** v is a danger, and the reply r of d is in flight if q awaits it. */
  ghost predicate Armed(u: World, v: World, l: Loc, q: Addr, d: Addr, r: Envelope) {
    Along(u, v, l, q, d) && Threat(v, q, d, l) && Ready(v, q, d, r)
  }

  lemma VoteFromOwed(u: World, v: World, l: Loc, q: Addr, d: Addr) returns (v': World, l': Loc, r: Envelope)
    requires Along(u, v, l, q, d) && Threat(v, q, d, l) && q in v.nodes[d].owed
    ensures Armed(u, v', l', q, d, r)
  {
    Facts(v, l, q, d);
    var v1, l1 := v, l;
    if l.Free? {
      v1, l1 := AsksAhead(u, v, l, q, d);
    }
    Facts(v1, l1, q, d);
    v', l' := OneFurther(u, v1, l1, q, d, FlushReply(d, q));
    r := Env(v1.next, d, q, CsReply(v'.nodes[d].clock));
  }

  lemma VoteFromLoaded(u: World, v: World, l: Loc, q: Addr, d: Addr, t: Task) returns (v': World, l': Loc, r: Envelope)
    requires Along(u, v, l, q, d) && Threat(v, q, d, l)
    requires t in v.nodes[d].tasks && t.from == q && t.Loaded? && Wins(t, v.nodes[d].me)
    ensures Armed(u, v', l', q, d, r)
  {
    Facts(v, l, q, d);
    var v1, l1 := v, l;
    if l.Free? {
      v1, l1 := AsksAhead(u, v, l, q, d);
    }
    Facts(v1, l1, q, d);
    v', l' := OneFurther(u, v1, l1, q, d, Act(d, t));
    r := Env(v1.next, d, q, CsReply(v'.nodes[d].clock));
  }

  lemma VoteFromTask(u: World, v: World, l: Loc, q: Addr, d: Addr, t: Task) returns (v': World, l': Loc, r: Envelope)
    requires Along(u, v, l, q, d) && Threat(v, q, d, l)
    requires t in v.nodes[d].tasks && t.from == q && WillAnswer(t, v.nodes[d])
    ensures Armed(u, v', l', q, d, r)
  {
    Facts(v, l, q, d);
    if t.Loaded? {
      v', l', r := VoteFromLoaded(u, v, l, q, d, t);
    } else {
      var v1, l1 := OneFurther(u, v, l, q, d, Load(d, t));
      v', l', r := VoteFromLoaded(u, v1, l1, q, d, Loaded(t.id, t.from, t.ts, v.nodes[d].reqTs));
    }
  }

  lemma VoteFromRequest(u: World, v: World, l: Loc, q: Addr, d: Addr, e: Envelope) returns (v': World, l': Loc, r: Envelope)
    requires Along(u, v, l, q, d) && Threat(v, q, d, l)
    requires v.nodes[d].phase == Requesting && v.nodes[d].reqTs.Some?
    requires e in v.net && e.from == q && e.to == d && e.body.CsRequest? && Before(Priority(e.body.ts, q), Prio(v.nodes[d]))
    ensures Armed(u, v', l', q, d, r)
  {
    Facts(v, l, q, d);
    var v1, l1 := OneFurther(u, v, l, q, d, Receive(e));
    v', l', r := VoteFromTask(u, v1, l1, q, d, Waiting(e.id, q, e.body.ts));
  }

  lemma VoteIsSent(u: World, v: World, l: Loc, q: Addr, d: Addr) returns (v': World, l': Loc, r: Envelope)
    requires Along(u, v, l, q, d) && Threat(v, q, d, l) && VoteComes(v, q, d)
    ensures Armed(u, v', l', q, d, r)
  {
    var n, m := v.nodes[q], v.nodes[d];
    if d !in n.pending {
      v', l', r := v, l, Env(0, d, q, CsReply(0));
    } else if q in m.owed {
      v', l', r := VoteFromOwed(u, v, l, q, d);
    } else if e :| e in v.net && e.from == d && e.to == q && e.body.CsReply? {
      v', l', r := v, l, e;
    } else if t :| t in m.tasks && t.from == q && WillAnswer(t, m) {
      v', l', r := VoteFromTask(u, v, l, q, d, t);
    } else {
      var e :| e in v.net && e.from == q && e.to == d && e.body.CsRequest? && Before(Priority(e.body.ts, q), Prio(m));
      v', l', r := VoteFromRequest(u, v, l, q, d, e);
    }
  }

  lemma ThreatAndVote(u: World, v: World, l: Loc, q: Addr, d: Addr) returns (v': World)
    requires Along(u, v, l, q, d) && Threat(v, q, d, l) && VoteComes(v, q, d)
    ensures Reaches(u, q, v') && Holds(v', q) && Holds(v', d)
  {
    var v1, l1, r := VoteIsSent(u, v, l, q, d);
    var v2, l2 := GetsPermission(u, v1, l1, q, d, r);
    v' := BothEnter(u, v2, l2, q, d, r);
  }

  /* ---- A further request of d ---- */

  lemma AdvanceTo(u: World, v: World, l: Loc, q: Addr, d: Addr, c: int) returns (v': World)
    requires Along(u, v, l, q, d) && v.nodes[d].clock <= c && l.Free?
    ensures Along(u, v', l, q, d) && v'.nodes == v.nodes[d := v.nodes[d].(clock := c)] && v'.net == v.net
  {
    v' := v;
    if v.nodes[d].clock < c {
      var l1;
      v', l1 := OneFurther(u, v, l, q, d, Advance(d, c));
    } else {
      assert v.nodes[d].(clock := c) == v.nodes[d];
    }
  }

  lemma LaterFromIdle(u: World, v: World, l: Loc, q: Addr, d: Addr) returns (v': World)
    requires Along(u, v, l, q, d) && l.Free? && Later(v, q, d, l)
    ensures Reaches(u, q, v') && Holds(v', q) && Holds(v', d)
  {
    Facts(v, l, q, d);
    var m := v.nodes[d];
    var e :| e in v.net && e.from == q && e.to == d && e.body.CsRequest?
             && Before(Priority(StampAfter(m.clock, Priority(e.body.ts, q), d), d), Prio(v.nodes[q]));
    var ts := StampAfter(m.clock, Priority(e.body.ts, q), d);
    var v1 := AdvanceTo(u, v, l, q, d, ts - 1);
    var v2, l2 := AsksAhead(u, v1, l, q, d);
    var v3, l3, r := VoteFromRequest(u, v2, l2, q, d, e);
    var v4, l4 := GetsPermission(u, v3, l3, q, d, r);
    v' := BothEnter(u, v4, l4, q, d, r);
  }

  /** A comparison that q's request has lost ends in a deferral. */
  lemma Defers(u: World, v: World, l: Loc, q: Addr, d: Addr, t: Task) returns (v': World)
    requires Along(u, v, l, q, d) && l.Granted? && Holds(v, d)
    requires t in v.nodes[d].tasks && t.from == q && t.Loaded? && !Wins(t, v.nodes[d].me)
    ensures Along(u, v', l, q, d) && Holds(v', d) && q in v'.nodes[d].deferred
    ensures v'.nodes[q] == v.nodes[q] && v'.nodes[d].clock == v.nodes[d].clock
  {
    Facts(v, l, q, d);
    var l1;
    v', l1 := OneFurther(u, v, l, q, d, Act(d, t));
  }

  lemma Leaves(u: World, v: World, l: Loc, q: Addr, d: Addr) returns (v': World, l': Loc)
    requires Along(u, v, l, q, d) && l.Granted? && Holds(v, d)
    ensures Along(u, v', l', q, d) && l'.Free? && v'.nodes[q] == v.nodes[q] && v'.net == v.net
    ensures v'.nodes[d].clock == v.nodes[d].clock && v'.nodes[d].tasks == v.nodes[d].tasks && v'.nodes[d].reqTs == None
    ensures v.nodes[d].deferred <= v'.nodes[d].owed
  {
    Facts(v, l, q, d);
    v', l' := OneFurther(u, v, l, q, d, Step.Collect(d));
  }

  /** d, in the section, leaves it, and what it has left over of q's requests gets q a vote. */
  lemma LaterFromHolder(u: World, v: World, l: Loc, q: Addr, d: Addr) returns (v': World)
    requires Along(u, v, l, q, d) && l.Granted? && Holds(v, d) && Later(v, q, d, l)
    ensures Reaches(u, q, v') && Holds(v', q) && Holds(v', d)
  {
    Facts(v, l, q, d);
    var n, m := v.nodes[q], v.nodes[d];
    var v1 := v;
    if t :| t in m.tasks && t.from == q && t.Loaded? && !Wins(t, m.me) && Before(Priority(m.clock + 1, d), Prio(n)) {
      v1 := Defers(u, v, l, q, d, t);
    }
    var v2, l2 := Leaves(u, v1, l, q, d);
    if Before(Priority(m.clock + 1, d), Prio(n)) && (q in v1.nodes[d].deferred || exists t :: t in m.tasks && t.from == q) {
      assert VoteComes(v2, q, d);
      v' := ThreatAndVote(u, v2, l2, q, d);
    } else {
      v' := LaterFromIdle(u, v2, l2, q, d);
    }
  }

  lemma LaterFromGranted(u: World, v: World, l: Loc, q: Addr, d: Addr) returns (v': World)
    requires Along(u, v, l, q, d) && l.Granted? && Later(v, q, d, l)
    ensures Reaches(u, q, v') && Holds(v', q) && Holds(v', d)
  {
    var v1 := HolderEnters(u, v, l, q, d);
    v' := LaterFromHolder(u, v1, l, q, d);
  }

  lemma LaterFromAnswered(u: World, v: World, l: Loc, q: Addr, d: Addr) returns (v': World)
    requires Along(u, v, l, q, d) && l.Answered? && d in v.nodes[q].pending && !VoteComes(v, q, d) && Later(v, q, d, l)
    ensures Reaches(u, q, v') && Holds(v', q) && Holds(v', d)
  {
    Facts(v, l, q, d);
    var v1, l1 := OneFurther(u, v, l, q, d, Receive(Env(l.id, q, d, CsReply(l.lam))));
    v' := LaterFromGranted(u, v1, l1, q, d);
  }

  lemma OpenIsReal(u: World, l: Loc, q: Addr, d: Addr) returns (v': World)
    requires Engages(u, l, q, d) && Open(u, q, d, l)
    ensures Reaches(u, q, v') && Holds(v', q) && Holds(v', d)
  {
    ReachesItself(u, q);
    if Threat(u, q, d, l) && VoteComes(u, q, d) {
      v' := ThreatAndVote(u, u, l, q, d);
    } else if l.Free? {
      v' := LaterFromIdle(u, u, l, q, d);
    } else if l.Granted? {
      v' := LaterFromGranted(u, u, l, q, d);
    } else {
      v' := LaterFromAnswered(u, u, l, q, d);
    }
  }

  /* ---- What runs with mistakes can come to ---- */

  /** Whatever mistakes a run has made, and whether or not q awaits the vote of d: while q keeps its request
      and lives, the live peer d, which has not given up on q, can come to be in exactly when q's
      permission is given, under way, or still to be had. */
  lemma EntersIffDanger(ws: seq<World>, ms: seq<Move>, k: nat, q: Addr, d: Addr)
    requires IsFallibleRun(ws, ms) && k < |ws| && (d, q) !in Mistakes(ms[..k])
    requires Live(ws[k], q) && Live(ws[k], d) && q != d && ws[k].nodes[q].reqTs.Some?
    ensures (exists v :: Reaches(ws[k], q, v) && Live(v, q) && Holds(v, d)) <==> Danger(ws[k], q, d)
  {
    var u := ws[k];
    var loc := FallibleRunInv(ws, ms, k);
    var l := loc(d, q);
    assert Engages(u, l, q, d);
    DangerByPlace(u, l, q, d);
    if Danger(u, q, d) {
      ReachesItself(u, q);
      var v1, l1 := GetsPermission(u, u, l, q, d, Env(0, d, q, CsReply(0)));
      var v := HolderEnters(u, v1, l1, q, d);
    } else if v :| Reaches(u, q, v) && Live(v, q) && Holds(v, d) {
      var us, ss :| Continues(us, ss, q) && us[0] == u && us[|ss|] == v;
      var end := SafePath(us, ss, |ss|, l, q, d);
      HolderHasPermission(v, end, q, d);
    }
  }

  /** Failure detection has to be accurate. Whatever mistakes a run has made, let q request or hold, and let
      the live peer d not have given up on q. Both can come to be in at once while q keeps its request if
      and only if d can come to be in and q needs no vote of d any more, or will be given one in time. */
  lemma FalseSuspicion(ws: seq<World>, ms: seq<Move>, k: nat, q: Addr, d: Addr)
    requires IsFallibleRun(ws, ms) && k < |ws| && (d, q) !in Mistakes(ms[..k])
    requires Live(ws[k], q) && Live(ws[k], d) && q != d && ws[k].nodes[q].reqTs.Some?
    ensures (exists v :: Reaches(ws[k], q, v) && Holds(v, q) && Holds(v, d)) <==> BothCanEnter(ws[k], q, d)
  {
    var u := ws[k];
    var loc := FallibleRunInv(ws, ms, k);
    var l := loc(d, q);
    assert Engages(u, l, q, d);
    DangerByPlace(u, l, q, d);
    LaterByPlace(u, l, q, d);
    if BothCanEnter(u, q, d) {
      var v := OpenIsReal(u, l, q, d);
    } else if v :| Reaches(u, q, v) && Holds(v, q) && Holds(v, d) {
      ClosedEnd(u, l, q, d, v);
    }
  }

  lemma ClosedEnd(u: World, l: Loc, q: Addr, d: Addr, v: World)
    requires Engages(u, l, q, d) && !Open(u, q, d, l) && Reaches(u, q, v)
    ensures !(Holds(v, q) && Holds(v, d))
  {
    if Holds(v, q) && Holds(v, d) {
      var us, ss :| Continues(us, ss, q) && us[0] == u && us[|ss|] == v;
      var end := ClosedPath(us, ss, |ss|, l, q, d);
      HolderHasPermission(v, end, q, d);
    }
  }

  ghost predicate TwoHolders(w: World) {
    exists x, y :: Holds(w, x) && Holds(w, y) && x != y
  }

  lemma {:induction false} PathInv(us: seq<World>, ss: seq<Step>, k: nat, start: Where, gone: set<(Addr, Addr)>)
    returns (loc: Where)
    requires IsPath(us, ss) && k < |us| && InvBut(us[0], start, gone)
    ensures InvBut(us[k], loc, gone)
  {
    if k == 0 {
      loc := start;
    } else {
      loc := PathInv(us, ss, k - 1, start, gone);
      assert StepAt(us, ss, k - 1);
      loc := StepKeepsInvBut(us[k - 1], ss[k - 1], loc, gone);
    }
  }

  lemma TwoHoldersAreThese(u: World, loc: Where, q: Addr, d: Addr, v: World)
    requires InvBut(u, loc, {(q, d)}) && Reaches(u, q, v) && TwoHolders(v)
    ensures Holds(v, q) && Holds(v, d)
  {
    var us, ss :| Continues(us, ss, q) && us[0] == u && us[|ss|] == v;
    var end := PathInv(us, ss, |ss|, loc, {(q, d)});
    var x, y :| Holds(v, x) && Holds(v, y) && x != y;
    HoldersDisagree(v, end, {(q, d)}, x, y);
  }

  /** If the only mistakes were those of q about d, the same condition says when any two peers can come
      to be in at once. */
  lemma ExclusionBreaksIff(ws: seq<World>, ms: seq<Move>, k: nat, q: Addr, d: Addr)
    requires IsFallibleRun(ws, ms) && k < |ws| && Mistakes(ms[..k]) == {(q, d)}
    requires Live(ws[k], q) && Live(ws[k], d) && q != d && ws[k].nodes[q].reqTs.Some?
    ensures (exists v :: Reaches(ws[k], q, v) && TwoHolders(v)) <==> BothCanEnter(ws[k], q, d)
  {
    assert (d, q) !in Mistakes(ms[..k]);
    FalseSuspicion(ws, ms, k, q, d);
    var loc := FallibleRunInv(ws, ms, k);
    forall v | Reaches(ws[k], q, v)
      ensures TwoHolders(v) <==> Holds(v, q) && Holds(v, d)
    {
      if TwoHolders(v) {
        TwoHoldersAreThese(ws[k], loc, q, d, v);
      }
    }
  }

  /** d has given its permission, or q wants none: d is behind q and does not get q's. */
  lemma UnawaitedPair(w: World, before: Where, q: Addr, d: Addr, lost: set<Envelope>)
    requires Inv(w, before) && CanSuspect(w, q, d, lost) && d !in w.nodes[q].pending
    ensures var v := Suspect(w, q, d, lost);
            && Pair(v.nodes[q], v.nodes[d], v.net, MovedBySuspicion(lost, q, d, before(q, d)))
            && (v.nodes[q].reqTs.Some? ==> !Danger(v, q, d))
  {
    assert PairOk(w, q, d, before(q, d)) && PairOk(w, d, q, before(d, q));
    assert NodeOk(w.nodes[q], q, w.nodes.Keys, w.next) && NodeOk(w.nodes[d], d, w.nodes.Keys, w.next);
  }

  /** A peer whose vote is not awaited: giving up on it breaks nothing the invariant says but that it is
      known, which matters for the next request only. */
  lemma UnawaitedSuspicion(ws: seq<World>, ss: seq<Step>, k: nat, q: Addr, d: Addr, lost: set<Envelope>) returns (loc: Where)
    requires IsRun(ws, ss) && k < |ws| && CanSuspect(ws[k], q, d, lost) && d !in ws[k].nodes[q].pending
    ensures var v := Suspect(ws[k], q, d, lost);
            && Base(v)
            && (forall i, j :: Live(v, i) && Live(v, j) && i != j && (i, j) != (q, d) ==> PairOk(v, i, j, loc(i, j)))
            && Pair(v.nodes[q], v.nodes[d], v.net, loc(q, d))
            && (v.nodes[q].reqTs.Some? ==> !Danger(v, q, d))
  {
    var w, v := ws[k], Suspect(ws[k], q, d, lost);
    var before := RunInv(ws, ss, k);
    loc := (i, j) => MovedBySuspicion(lost, i, j, before(i, j));
    SuspectKeepsBase(w, q, d, lost);
    forall i, j | Live(v, i) && Live(v, j) && i != j && (i, j) != (q, d)
      ensures PairOk(v, i, j, loc(i, j))
    {
      SuspectKeepsPair(w, q, d, lost, i, j, before(i, j));
    }
    UnawaitedPair(w, before, q, d, lost);
  }
}
