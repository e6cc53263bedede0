/** Exactly when two peers of which one has given up on the other can come to be in the critical section
    at once. */
module DoubleEntry {
  import opened Types
  import opened CriticalSection
  import opened MutexSystem
  import opened MutexInvariant
  import opened MutexTheorems

  /** How the steps can go on from u while q keeps its request. */
  ghost predicate Continues(us: seq<World>, ss: seq<Step>, q: Addr) {
    && IsPath(us, ss)
    && forall k :: 0 <= k < |us| ==>
         q in us[0].nodes && q in us[k].nodes && us[k].nodes[q].reqTs == us[0].nodes[q].reqTs
  }

  ghost predicate Reaches(u: World, q: Addr, v: World) {
    exists us, ss :: Continues(us, ss, q) && us[0] == u && us[|ss|] == v
  }

  /* ---- What d and q can still get from each other while q keeps its request ---- */

  /** A reply of x to y is in flight or owed. */
  ghost predicate ReplyUnderWay(u: World, x: Addr, y: Addr)
    requires x in u.nodes
  {
    y in u.nodes[x].owed || exists e :: e in u.net && e.from == x && e.to == y && e.body.CsReply?
  }

  /** The comparison will end with a reply if the local request stays as it is. */
  predicate WillAnswer(t: Task, n: Cs) {
    if t.Loaded? then Wins(t, n.me) else n.reqTs.None? || Before(Priority(t.ts, t.from), Prio(n))
  }

  /** d has q's permission or can still get it: q gave it or will on its own, or d's request is ahead of
      q's and q, still requesting, will compare them. An idle d counts if its next stamp would be ahead. */
  ghost predicate Danger(u: World, q: Addr, d: Addr)
    requires q in u.nodes && d in u.nodes && u.nodes[q].reqTs.Some?
  {
    var n, m := u.nodes[q], u.nodes[d];
    if m.reqTs.None? then n.phase == Requesting && Before(Priority(m.clock + 1, d), Prio(n))
    else
      || q !in m.pending
      || ReplyUnderWay(u, q, d)
      || (exists t :: t in n.tasks && t.from == d && WillAnswer(t, n))
      || (n.phase == Requesting && Before(Prio(m), Prio(n)) &&
          exists e :: e in u.net && e.from == d && e.to == q && e.body.CsRequest?)
  }

  /** q awaits no vote of d, or d will give one before it makes another request, be it for q's present
      request or, stale, for one that q has ended: either counts. */
  ghost predicate VoteComes(u: World, q: Addr, d: Addr)
    requires q in u.nodes && d in u.nodes
  {
    var n, m := u.nodes[q], u.nodes[d];
    || d !in n.pending
    || ReplyUnderWay(u, d, q)
    || (exists t :: t in m.tasks && t.from == q && WillAnswer(t, m))
    || (m.phase == Requesting && m.reqTs.Some? &&
        exists e :: e in u.net && e.from == q && e.to == d && e.body.CsRequest? && Before(Priority(e.body.ts, q), Prio(m)))
  }

  /** Idle, or with q's permission given or in flight, d can come to make its next request; c is its clock
      at that time if nothing else happens. */
  ghost predicate AsksNextFrom(u: World, q: Addr, d: Addr, c: int)
    requires d in u.nodes
  {
    var m := u.nodes[d];
    || ((m.reqTs.None? || q !in m.pending) && c == m.clock)
    || (m.reqTs.Some? && exists e :: e in u.net && e.from == q && e.to == d && e.body.CsReply? &&
                                      c == (if m.clock < e.body.lam then e.body.lam else m.clock) + 1)
  }

  /** The least stamp above c that makes a request of d come after p. */
  function StampAfter(c: int, p: Priority, d: Addr): (ts: int)
    ensures ts > c && Before(p, Priority(ts, d))
    ensures forall s :: s > c && Before(p, Priority(s, d)) ==> ts <= s
  {
    if Before(p, Priority(c + 1, d)) then c + 1 else if p.addr < d then p.ts else p.ts + 1
  }

  /** d can make a further request that is still ahead of q's, and a stale vote comes with it: one that d
      deferred and answers when it leaves, or that of an old request of q which d has yet to handle. */
  ghost predicate VoteComesLater(u: World, q: Addr, d: Addr)
    requires q in u.nodes && d in u.nodes && u.nodes[q].reqTs.Some?
  {
    var n, m := u.nodes[q], u.nodes[d];
    n.phase == Requesting && exists c :: AsksNextFrom(u, q, d, c) && LeftOver(u, q, d, c)
  }

  ghost predicate LeftOver(u: World, q: Addr, d: Addr, c: int)
    requires q in u.nodes && d in u.nodes && u.nodes[q].reqTs.Some?
  {
    var n, m := u.nodes[q], u.nodes[d];
    || (m.reqTs.Some? && Before(Priority(c + 1, d), Prio(n)) && (q in m.deferred || exists t :: t in m.tasks && t.from == q))
    || (exists e :: e in u.net && e.from == q && e.to == d && e.body.CsRequest? &&
                    Before(Priority(StampAfter(c, Priority(e.body.ts, q), d), d), Prio(n)))
  }

  ghost predicate BothCanEnter(u: World, q: Addr, d: Addr)
    requires q in u.nodes && d in u.nodes && u.nodes[q].reqTs.Some?
  {
    (Danger(u, q, d) && VoteComes(u, q, d)) || VoteComesLater(u, q, d)
  }

  /* ---- The same by the place of q's permission for d ---- */

  ghost predicate Threat(u: World, q: Addr, d: Addr, l: Loc)
    requires q in u.nodes && d in u.nodes && u.nodes[q].reqTs.Some?
  {
    var n, m := u.nodes[q], u.nodes[d];
    match l
    case Free => n.phase == Requesting && Before(Priority(m.clock + 1, d), Prio(n))
    case Asked(_) => n.phase == Requesting && m.reqTs.Some? && Before(Prio(m), Prio(n))
    case Weighed(_) => exists t :: t in n.tasks && t.from == d && WillAnswer(t, n)
    case Held => false
    case Doomed => false
    case Lost => false
    case Owed => true
    case Answered(_, _) => true
    case Granted => true
  }

  function NextClock(m: Cs, l: Loc): int {
    if l.Answered? then (if m.clock < l.lam then l.lam else m.clock) + 1 else m.clock
  }

  ghost predicate Later(u: World, q: Addr, d: Addr, l: Loc)
    requires q in u.nodes && d in u.nodes && u.nodes[q].reqTs.Some?
  {
    u.nodes[q].phase == Requesting && (l.Free? || l.Granted? || l.Answered?) && LeftOver(u, q, d, NextClock(u.nodes[d], l))
  }

  ghost predicate Open(u: World, q: Addr, d: Addr, l: Loc)
    requires q in u.nodes && d in u.nodes && u.nodes[q].reqTs.Some?
  {
    (Threat(u, q, d, l) && VoteComes(u, q, d)) || Later(u, q, d, l)
  }

  /** q requests or holds, d has not given up on q, and q's permission for d is at l. */
  ghost predicate Engages(v: World, l: Loc, q: Addr, d: Addr) {
    && Base(v) && Live(v, q) && Live(v, d) && q != d
    && PairOk(v, d, q, l)
    && v.nodes[q].reqTs.Some?
  }

  lemma Facts(v: World, l: Loc, q: Addr, d: Addr)
    requires Engages(v, l, q, d)
    ensures NodeOk(v.nodes[q], q, v.nodes.Keys, v.next) && NodeOk(v.nodes[d], d, v.nodes.Keys, v.next)
  {
  }

  lemma DangerByPlace(v: World, l: Loc, q: Addr, d: Addr)
    requires Engages(v, l, q, d)
    ensures Danger(v, q, d) <==> Threat(v, q, d, l)
  {
    Facts(v, l, q, d);
  }

  lemma LaterByPlace(v: World, l: Loc, q: Addr, d: Addr)
    requires Engages(v, l, q, d)
    ensures VoteComesLater(v, q, d) <==> Later(v, q, d, l)
  {
    Facts(v, l, q, d);
    var c := NextClock(v.nodes[d], l);
    if l.Free? || l.Granted? || l.Answered? {
      assert AsksNextFrom(v, q, d, c);
      assert forall b :: AsksNextFrom(v, q, d, b) ==> b == c;
    } else {
      assert forall b :: !AsksNextFrom(v, q, d, b);
    }
  }

  lemma StaysEngaged(v: World, l: Loc, q: Addr, d: Addr, s: Step) returns (l': Loc)
    requires Engages(v, l, q, d) && Enabled(v, s) && Live(Next(v, s), q) && Live(Next(v, s), d)
    requires Next(v, s).nodes[q].reqTs == v.nodes[q].reqTs
    ensures Engages(Next(v, s), l', q, d) && l' == Moved(v, s, d, q, l)
  {
    Facts(v, l, q, d);
    StepKeepsBase(v, s);
    StepKeepsPair(v, s, d, q, l);
    l' := Moved(v, s, d, q, l);
  }

  /* ---- What is closed stays closed ---- */

  lemma NoThreatByOwnHandler(v: World, l: Loc, q: Addr, d: Addr, s: Step)
    requires Engages(v, l, q, d) && !Threat(v, q, d, l) && Enabled(v, s) && Actor(s) == q
    requires s.Receive? || s.Load? || s.Act?
    requires Next(v, s).nodes[q].reqTs == v.nodes[q].reqTs
    ensures !Threat(Next(v, s), q, d, Moved(v, s, d, q, l))
  {
    Facts(v, l, q, d);
  }

  lemma NoThreatByOwnStep(v: World, l: Loc, q: Addr, d: Addr, s: Step)
    requires Engages(v, l, q, d) && !Threat(v, q, d, l) && Enabled(v, s) && Actor(s) == q && !s.Crash?
    requires !s.Receive? && !s.Load? && !s.Act?
    requires Next(v, s).nodes[q].reqTs == v.nodes[q].reqTs
    ensures !Threat(Next(v, s), q, d, Moved(v, s, d, q, l))
  {
    Facts(v, l, q, d);
  }

  lemma NoThreatByOther(v: World, l: Loc, q: Addr, d: Addr, s: Step)
    requires Engages(v, l, q, d) && !Threat(v, q, d, l) && Enabled(v, s) && Actor(s) != q && Live(Next(v, s), d)
    ensures !Threat(Next(v, s), q, d, Moved(v, s, d, q, l))
  {
    Facts(v, l, q, d);
  }

  /** Without danger none arises. */
  lemma NoThreatStays(v: World, l: Loc, q: Addr, d: Addr, s: Step)
    requires Engages(v, l, q, d) && !Threat(v, q, d, l) && Enabled(v, s) && Live(Next(v, s), q) && Live(Next(v, s), d)
    requires Next(v, s).nodes[q].reqTs == v.nodes[q].reqTs
    ensures !Threat(Next(v, s), q, d, Moved(v, s, d, q, l))
  {
    if Actor(s) != q {
      NoThreatByOther(v, l, q, d, s);
    } else if s.Receive? || s.Load? || s.Act? {
      NoThreatByOwnHandler(v, l, q, d, s);
    } else {
      NoThreatByOwnStep(v, l, q, d, s);
    }
  }

  /** v brings q nothing of d's that u did not promise: whatever v has of votes and leftovers u has, at a
      clock of d that is not later. */
  ghost predicate NothingNew(u: World, v: World, q: Addr, d: Addr)
    requires q in u.nodes && d in u.nodes && q in v.nodes && d in v.nodes
  {
    var n, m, n', m' := u.nodes[q], u.nodes[d], v.nodes[q], v.nodes[d];
    && n'.reqTs == n.reqTs && n'.me == n.me && (n'.phase == Requesting ==> n.phase == Requesting)
    && m'.reqTs == m.reqTs && m'.me == m.me && (m'.phase == Requesting ==> m.phase == Requesting) && m.clock <= m'.clock
    && (d !in n'.pending ==> d !in n.pending || ReplyUnderWay(u, d, q))
    && (ReplyUnderWay(v, d, q) ==> ReplyUnderWay(u, d, q))
    && (q in m'.deferred ==> q in m.deferred)
    && (forall t :: t in m'.tasks && t.from == q ==> t in m.tasks)
    && (forall e :: e in v.net && e.from == q && e.to == d && e.body.CsRequest? ==> e in u.net)
  }

  lemma VoteWasToCome(u: World, v: World, q: Addr, d: Addr)
    requires q in u.nodes && d in u.nodes && q in v.nodes && d in v.nodes && NothingNew(u, v, q, d)
    ensures VoteComes(v, q, d) ==> VoteComes(u, q, d)
  {
  }

  lemma LeftOverBefore(u: World, v: World, q: Addr, d: Addr, c: int, c': int)
    requires q in u.nodes && d in u.nodes && q in v.nodes && d in v.nodes && NothingNew(u, v, q, d)
    requires u.nodes[q].reqTs.Some? && c <= c' && LeftOver(v, q, d, c')
    ensures LeftOver(u, q, d, c)
  {
  }

  /** The place and the clock of the next request stay or get worse for d. */
  ghost predicate NoEarlier(u: World, v: World, q: Addr, d: Addr, l: Loc, l': Loc)
    requires q in u.nodes && d in u.nodes && q in v.nodes && d in v.nodes && u.nodes[q].reqTs.Some?
  {
    l'.Free? || l'.Granted? || l'.Answered? ==>
      || ((l.Free? || l.Granted? || l.Answered?) && NextClock(u.nodes[d], l) <= NextClock(v.nodes[d], l'))
      || NextClock(v.nodes[d], l') >= u.nodes[q].reqTs.value
  }

  lemma StillClosed(u: World, v: World, q: Addr, d: Addr, l: Loc, l': Loc)
    requires Engages(u, l, q, d) && Engages(v, l', q, d) && !Open(u, q, d, l)
    requires Threat(v, q, d, l') ==> Threat(u, q, d, l)
    requires NothingNew(u, v, q, d) && NoEarlier(u, v, q, d, l, l')
    ensures !Open(v, q, d, l')
  {
    VoteWasToCome(u, v, q, d);
    if Later(v, q, d, l') {
      var c' := NextClock(v.nodes[d], l');
      StampIsLate(v, q, d, c');
      LeftOverBefore(u, v, q, d, NextClock(u.nodes[d], l), c');
    }
  }

  lemma StampIsLate(v: World, q: Addr, d: Addr, c: int)
    requires q in v.nodes && d in v.nodes && v.nodes[q].reqTs.Some? && LeftOver(v, q, d, c)
    ensures c < v.nodes[q].reqTs.value
  {
  }

  lemma OwnReceiveBringsNothing(v: World, l: Loc, q: Addr, d: Addr, s: Step)
    requires Engages(v, l, q, d) && Enabled(v, s) && Actor(s) == q && s.Receive?
    requires Next(v, s).nodes[q].reqTs == v.nodes[q].reqTs
    ensures NothingNew(v, Next(v, s), q, d) && NoEarlier(v, Next(v, s), q, d, l, Moved(v, s, d, q, l))
  {
    Facts(v, l, q, d);
    SentIsOk(v, s);
  }

  lemma OwnStepBringsNothing(v: World, l: Loc, q: Addr, d: Addr, s: Step)
    requires Engages(v, l, q, d) && Enabled(v, s) && Actor(s) == q && !s.Receive? && !s.Crash?
    requires Next(v, s).nodes[q].reqTs == v.nodes[q].reqTs
    ensures NothingNew(v, Next(v, s), q, d) && NoEarlier(v, Next(v, s), q, d, l, Moved(v, s, d, q, l))
  {
    Facts(v, l, q, d);
    SentIsOk(v, s);
  }

  lemma ThirdBringsNothing(v: World, l: Loc, q: Addr, d: Addr, s: Step)
    requires Engages(v, l, q, d) && Enabled(v, s) && Actor(s) != q && Actor(s) != d
    ensures NothingNew(v, Next(v, s), q, d) && NoEarlier(v, Next(v, s), q, d, l, Moved(v, s, d, q, l))
  {
    Facts(v, l, q, d);
    SentIsOk(v, s);
  }

  /** The steps of d that bear on its request or on one of q. */
  predicate Matters(v: World, s: Step, q: Addr)
    requires Enabled(v, s)
  {
    match s
    case Request(p) => v.nodes[p].phase == Idle
    case Collect(p) => v.nodes[p].phase == InCs
    case Receive(e) => e.from == q && e.body.CsRequest?
    case Load(_, t) => t.from == q
    case Act(_, t) => t.from == q
    case _ => false
  }

  lemma ReceiveBringsNothing(v: World, l: Loc, q: Addr, d: Addr, s: Step)
    requires Engages(v, l, q, d) && Enabled(v, s) && Actor(s) == d && s.Receive? && !Matters(v, s, q)
    ensures NothingNew(v, Next(v, s), q, d) && NoEarlier(v, Next(v, s), q, d, l, Moved(v, s, d, q, l))
  {
    Facts(v, l, q, d);
    SentIsOk(v, s);
  }

  lemma HandlerBringsNothing(v: World, l: Loc, q: Addr, d: Addr, s: Step)
    requires Engages(v, l, q, d) && Enabled(v, s) && Actor(s) == d && (s.Load? || s.Act? || s.FlushReply?) && !Matters(v, s, q)
    ensures NothingNew(v, Next(v, s), q, d) && NoEarlier(v, Next(v, s), q, d, l, Moved(v, s, d, q, l))
  {
    Facts(v, l, q, d);
    SentIsOk(v, s);
  }

  lemma OtherBringsNothing(v: World, l: Loc, q: Addr, d: Addr, s: Step)
    requires Engages(v, l, q, d) && Enabled(v, s) && Actor(s) == d && !Matters(v, s, q)
    requires !s.Receive? && !s.Crash? && !s.Load? && !s.Act? && !s.FlushReply?
    ensures NothingNew(v, Next(v, s), q, d) && NoEarlier(v, Next(v, s), q, d, l, Moved(v, s, d, q, l))
  {
    Facts(v, l, q, d);
    SentIsOk(v, s);
  }

  lemma ClosedByRequest(v: World, l: Loc, q: Addr, d: Addr, s: Step)
    requires Engages(v, l, q, d) && !Open(v, q, d, l) && Enabled(v, s) && s == Request(d) && Matters(v, s, q)
    ensures !Open(Next(v, s), q, d, Moved(v, s, d, q, l))
  {
    Facts(v, l, q, d);
  }

  lemma ClosedByRelease(v: World, l: Loc, q: Addr, d: Addr, s: Step)
    requires Engages(v, l, q, d) && !Open(v, q, d, l) && Enabled(v, s) && s == Step.Collect(d) && Matters(v, s, q)
    ensures !Open(Next(v, s), q, d, Moved(v, s, d, q, l))
  {
    Facts(v, l, q, d);
  }

  lemma ClosedByIdle(v: World, l: Loc, q: Addr, d: Addr, e: Envelope)
    requires Engages(v, l, q, d) && !Open(v, q, d, l) && Enabled(v, Receive(e))
    requires e.from == q && e.to == d && e.body.CsRequest?
    requires v.nodes[d].phase == Idle
    ensures !Open(Next(v, Receive(e)), q, d, Moved(v, Receive(e), d, q, l))
  {
    Facts(v, l, q, d);
  }

  lemma ClosedByRequester(v: World, l: Loc, q: Addr, d: Addr, e: Envelope)
    requires Engages(v, l, q, d) && !Open(v, q, d, l) && Enabled(v, Receive(e))
    requires e.from == q && e.to == d && e.body.CsRequest?
    requires v.nodes[d].phase == Requesting
    ensures !Open(Next(v, Receive(e)), q, d, Moved(v, Receive(e), d, q, l))
  {
    Facts(v, l, q, d);
  }

  lemma ClosedByHolder(v: World, l: Loc, q: Addr, d: Addr, e: Envelope)
    requires Engages(v, l, q, d) && !Open(v, q, d, l) && Enabled(v, Receive(e))
    requires e.from == q && e.to == d && e.body.CsRequest?
    requires v.nodes[d].phase == InCs
    ensures !Open(Next(v, Receive(e)), q, d, Moved(v, Receive(e), d, q, l))
  {
    Facts(v, l, q, d);
  }

  lemma ClosedByLoad(v: World, l: Loc, q: Addr, d: Addr, t: Task)
    requires Engages(v, l, q, d) && !Open(v, q, d, l) && Enabled(v, Load(d, t)) && t.from == q
    ensures !Open(Next(v, Load(d, t)), q, d, Moved(v, Load(d, t), d, q, l))
  {
    Facts(v, l, q, d);
  }

  lemma ClosedByAct(v: World, l: Loc, q: Addr, d: Addr, t: Task)
    requires Engages(v, l, q, d) && !Open(v, q, d, l) && Enabled(v, Act(d, t)) && t.from == q
    ensures !Open(Next(v, Act(d, t)), q, d, Moved(v, Act(d, t), d, q, l))
  {
    Facts(v, l, q, d);
  }

  lemma ClosedByVoter(v: World, l: Loc, q: Addr, d: Addr, s: Step)
    requires Engages(v, l, q, d) && !Open(v, q, d, l) && Enabled(v, s) && Actor(s) == d && Matters(v, s, q)
    ensures !Open(Next(v, s), q, d, Moved(v, s, d, q, l))
  {
    match s
    case Request(_) => ClosedByRequest(v, l, q, d, s);
    case Collect(_) => ClosedByRelease(v, l, q, d, s);
    case Receive(e) =>
      match v.nodes[d].phase {
        case Idle => ClosedByIdle(v, l, q, d, e);
        case Requesting => ClosedByRequester(v, l, q, d, e);
        case InCs => ClosedByHolder(v, l, q, d, e);
      }
    case Load(_, t) => ClosedByLoad(v, l, q, d, t);
    case Act(_, t) => ClosedByAct(v, l, q, d, t);
  }

  lemma StepBringsNothing(v: World, l: Loc, q: Addr, d: Addr, s: Step)
    requires Engages(v, l, q, d) && Enabled(v, s) && Live(Next(v, s), q) && Live(Next(v, s), d)
    requires Next(v, s).nodes[q].reqTs == v.nodes[q].reqTs && !(Actor(s) == d && Matters(v, s, q))
    ensures NothingNew(v, Next(v, s), q, d) && NoEarlier(v, Next(v, s), q, d, l, Moved(v, s, d, q, l))
  {
    if Actor(s) == q {
      if s.Receive? {
        OwnReceiveBringsNothing(v, l, q, d, s);
      } else {
        OwnStepBringsNothing(v, l, q, d, s);
      }
    } else if Actor(s) != d {
      ThirdBringsNothing(v, l, q, d, s);
    } else if s.Receive? {
      ReceiveBringsNothing(v, l, q, d, s);
    } else if s.Load? || s.Act? || s.FlushReply? {
      HandlerBringsNothing(v, l, q, d, s);
    } else {
      OtherBringsNothing(v, l, q, d, s);
    }
  }

  lemma ClosedStep(v: World, l: Loc, q: Addr, d: Addr, s: Step) returns (l': Loc)
    requires Engages(v, l, q, d) && !Open(v, q, d, l) && Enabled(v, s) && Live(Next(v, s), q) && Live(Next(v, s), d)
    requires Next(v, s).nodes[q].reqTs == v.nodes[q].reqTs
    ensures Engages(Next(v, s), l', q, d) && !Open(Next(v, s), q, d, l')
  {
    l' := StaysEngaged(v, l, q, d, s);
    if Actor(s) == d && Matters(v, s, q) {
      ClosedByVoter(v, l, q, d, s);
    } else {
      StepBringsNothing(v, l, q, d, s);
      if !Threat(v, q, d, l) {
        NoThreatStays(v, l, q, d, s);
      }
      StillClosed(v, Next(v, s), q, d, l, l');
    }
  }

  lemma {:induction false} ClosedPath(us: seq<World>, ss: seq<Step>, k: nat, start: Loc, q: Addr, d: Addr) returns (l: Loc)
    requires Continues(us, ss, q) && k < |us| && Live(us[|ss|], q) && Live(us[|ss|], d)
    requires Engages(us[0], start, q, d) && !Open(us[0], q, d, start)
    ensures Engages(us[k], l, q, d) && !Open(us[k], q, d, l)
  {
    if k == 0 {
      l := start;
    } else {
      var before := ClosedPath(us, ss, k - 1, start, q, d);
      assert StepAt(us, ss, k - 1);
      LiveBefore(us, ss, k, |ss|, q);
      LiveBefore(us, ss, k, |ss|, d);
      l := ClosedStep(us[k - 1], before, q, d, ss[k - 1]);
    }
  }

  lemma {:induction false} SafePath(us: seq<World>, ss: seq<Step>, k: nat, start: Loc, q: Addr, d: Addr) returns (l: Loc)
    requires Continues(us, ss, q) && k < |us| && Live(us[|ss|], q) && Live(us[|ss|], d)
    requires Engages(us[0], start, q, d) && !Threat(us[0], q, d, start)
    ensures Engages(us[k], l, q, d) && !Threat(us[k], q, d, l)
  {
    if k == 0 {
      l := start;
    } else {
      var before := SafePath(us, ss, k - 1, start, q, d);
      assert StepAt(us, ss, k - 1);
      LiveBefore(us, ss, k, |ss|, q);
      LiveBefore(us, ss, k, |ss|, d);
      l := StaysEngaged(us[k - 1], before, q, d, ss[k - 1]);
      NoThreatStays(us[k - 1], before, q, d, ss[k - 1]);
    }
  }

  lemma HolderHasPermission(v: World, l: Loc, q: Addr, d: Addr)
    requires Engages(v, l, q, d) && Holds(v, d)
    ensures Threat(v, q, d, l)
    ensures Holds(v, q) ==> VoteComes(v, q, d)
  {
    Facts(v, l, q, d);
  }
}
