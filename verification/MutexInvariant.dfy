/** The inductive invariant of the critical section: where the permission of each ordered pair of
    live peers is, and what that place says about clocks and priorities. */
module MutexInvariant {
  import opened Types
  import opened CriticalSection
  import opened MutexSystem

  /** Where j's permission for i's current request is. Ids name the message or the handler thread;
      `lam` is the reply's stamp. A deferral added between the two halves of a release is Doomed, and
      Lost once it is cleared away. */
  datatype Loc =
    | Free
    | Asked(id: nat)
    | Weighed(id: nat)
    | Held
    | Doomed
    | Lost
    | Owed
    | Answered(id: nat, lam: int)
    | Granted

  type Where = (Addr, Addr) -> Loc

  ghost predicate NodeOk(n: Cs, p: Addr, peers: set<Addr>, next: nat) {
    && n.me == p
    && (n.phase == Idle <==> n.reqTs == None)
    && (n.reqTs.Some? ==> n.reqTs.value <= n.clock)
    && (n.pending != {} ==> n.phase == Requesting)
    && n.pending <= peers - {p}
    && n.deferred <= peers - {p}
    && n.owed <= peers - {p}
    && (n.releasing ==> n.phase == Idle)
    && (forall t :: t in n.tasks ==> t.from in peers && t.from != p)
    && (forall t :: t in n.tasks && t.Loaded? && t.mine.Some? ==> t.mine.value <= n.clock)
    && n.neighbors <= peers - {p}
    && (forall id :: id in n.seen ==> id < next)
  }

  ghost predicate NetOk(w: World) {
    && (forall e :: e in w.net ==>
          && e.from in w.nodes && e.to in w.nodes && e.from != e.to
          && e.id < w.next && e.id !in w.nodes[e.to].seen)
    && (forall e, f :: e in w.net && f in w.net && e.id == f.id && e.to == f.to ==> e == f)
  }

  /** Exactly one place holds j's permission for i, namely the one l names. */
  ghost predicate Placed(ni: Cs, nj: Cs, net: set<Envelope>, l: Loc) {
    && (ni.phase == Idle <==> l == Free)
    && (forall e :: e in net && e.from == ni.me && e.to == nj.me && e.body.CsRequest? ==>
          l == Asked(e.id) && ni.reqTs == Some(e.body.ts))
    && (l.Asked? && ni.reqTs.Some? ==> Env(l.id, ni.me, nj.me, CsRequest(ni.reqTs.value)) in net)
    && (forall t :: t in nj.tasks && t.from == ni.me ==> l == Weighed(t.id) && ni.reqTs == Some(t.ts))
    && (forall t, u :: t in nj.tasks && u in nj.tasks && t.from == ni.me && u.from == ni.me ==> t == u)
    && (l.Weighed? ==> exists t :: t in nj.tasks && t.id == l.id && t.from == ni.me)
    && (ni.me in nj.deferred && !nj.releasing <==> l == Held)
    && (ni.me in nj.deferred - nj.owed && nj.releasing <==> l == Doomed)
    && (ni.me in nj.owed <==> l == Owed)
    && (forall e :: e in net && e.from == nj.me && e.to == ni.me && e.body.CsReply? ==> l == Answered(e.id, e.body.lam))
    && (l.Answered? ==> Env(l.id, nj.me, ni.me, CsReply(l.lam)) in net)
    && (ni.phase != Idle ==> (nj.me !in ni.pending <==> l == Granted))
  }

  /** A voter that has taken in the request has passed its stamp; one that has given or lost its
      permission is behind in priority; a comparison in progress uses the voter's present stamp if that
      matters. */
  ghost predicate Ordered(ni: Cs, nj: Cs, l: Loc) {
    && (ni.reqTs.Some? && !l.Asked? ==> ni.reqTs.value < nj.clock)
    && (ni.reqTs.Some? && nj.reqTs.Some? && !l.Asked? && !l.Weighed? && !l.Held? ==> Before(Prio(ni), Prio(nj)))
    && (ni.reqTs.Some? && nj.reqTs.Some? && Before(Prio(nj), Prio(ni)) ==>
          forall t :: t in nj.tasks && t.from == ni.me && t.Loaded? ==> t.mine == nj.reqTs)
  }

  ghost predicate Pair(ni: Cs, nj: Cs, net: set<Envelope>, l: Loc) {
    Placed(ni, nj, net, l) && Ordered(ni, nj, l)
  }

  ghost predicate Base(w: World) {
    && w.dead <= w.nodes.Keys
    && NetOk(w)
    && forall p :: p in w.nodes ==> NodeOk(w.nodes[p], p, w.nodes.Keys, w.next)
  }

  ghost predicate Inv(w: World, loc: Where) {
    && Base(w)
    && forall i, j :: Live(w, i) && Live(w, j) && i != j ==> PairOk(w, i, j, loc(i, j))
  }

  /** j is known to i, and its permission for i is at l. */
  ghost predicate PairOk(w: World, i: Addr, j: Addr, l: Loc)
    requires i in w.nodes && j in w.nodes
  {
    j in w.nodes[i].neighbors && Pair(w.nodes[i], w.nodes[j], w.net, l)
  }

  /** The invariant of all pairs but those whose first has given up on the second, rightly or not. */
  ghost predicate InvBut(w: World, loc: Where, gone: set<(Addr, Addr)>) {
    && Base(w)
    && forall i, j :: Live(w, i) && Live(w, j) && i != j && (i, j) !in gone ==> PairOk(w, i, j, loc(i, j))
  }

  /** How a step moves the permission that is at l. */
  ghost function Moved(w: World, s: Step, i: Addr, j: Addr, l: Loc): Loc
    requires Enabled(w, s)
  {
    match s
    case Request(p) => if i == p && w.nodes[p].phase == Idle then Asked(w.next) else l
    case Collect(p) =>
      if w.nodes[p].phase != InCs then l
      else if i == p then Free
      else if j == p && l == Held then Owed
      else l
    case Clear(p) => if j == p && l == Doomed then Lost else l
    case FlushReply(p, q) => if j == p && i == q then Answered(w.next, w.nodes[p].clock + 1) else l
    case Act(p, t) =>
      if j != p || i != t.from then l
      else if Wins(t, w.nodes[p].me) then Answered(w.next, w.nodes[p].clock + 1)
      else if w.nodes[p].releasing then Doomed
      else Held
    case Receive(e) =>
      (match e.body
       case CsRequest(_) =>
         if i == e.from && j == e.to then
           (match w.nodes[j].phase
            case Idle => Answered(w.next, Arrive(w.nodes[j], e).clock + 1)
            case InCs => Held
            case Requesting => Weighed(e.id))
         else l
       case CsReply(_) => if i == e.to && j == e.from && w.nodes[i].phase == Requesting then Granted else l
       case Data(_, _) => l)
    case _ => l
  }

  /* ---- What every step keeps, peer by peer and message by message. ---- */

  lemma AfterIsOk(w: World, s: Step)
    requires Base(w) && Enabled(w, s)
    ensures NodeOk(After(w, s), Actor(s), w.nodes.Keys, w.next + 1)
  {
    var n := w.nodes[Actor(s)];
    assert NodeOk(n, Actor(s), w.nodes.Keys, w.next);
  }

  lemma SentIsOk(w: World, s: Step)
    requires Base(w) && Enabled(w, s)
    ensures forall e :: e in Sent(w, s) ==> e.id == w.next && e.from == Actor(s) && e.to in w.nodes && e.to != e.from
    ensures forall e, f :: e in Sent(w, s) && f in Sent(w, s) && e.to == f.to ==> e == f
    ensures forall e :: e in w.net - Consumed(s) && e.to == Actor(s) ==> e.id !in After(w, s).seen
  {
    var n := w.nodes[Actor(s)];
    assert NodeOk(n, Actor(s), w.nodes.Keys, w.next);
  }

  lemma StepKeepsBase(w: World, s: Step)
    requires Base(w) && Enabled(w, s)
    ensures Base(Next(w, s)) && Next(w, s).nodes.Keys == w.nodes.Keys
  {
    AfterIsOk(w, s);
    SentIsOk(w, s);
    var v := Next(w, s);
    forall p | p in v.nodes
      ensures NodeOk(v.nodes[p], p, v.nodes.Keys, v.next)
    {
      assert NodeOk(w.nodes[p], p, w.nodes.Keys, w.next);
    }
  }

  /* ---- What every step keeps, pair by pair. ---- */

  /** Messages that bear on i's request to j. */
  predicate Between(e: Envelope, i: Addr, j: Addr) {
    (e.from == i && e.to == j && e.body.CsRequest?) || (e.from == j && e.to == i && e.body.CsReply?)
  }

  predicate SameBetween(net: set<Envelope>, net': set<Envelope>, i: Addr, j: Addr) {
    && (forall e :: e in net && Between(e, i, j) ==> e in net')
    && (forall e :: e in net' && Between(e, i, j) ==> e in net)
  }

  /** The voter keeps i's permission where it is; it may request, release or enter meanwhile. */
  ghost predicate VoterStays(nj: Cs, nj': Cs, i: Addr) {
    && nj'.me == nj.me
    && nj.clock <= nj'.clock
    && (i in nj'.deferred <==> i in nj.deferred)
    && (i in nj.deferred ==> nj'.releasing == nj.releasing)
    && (i in nj'.owed <==> i in nj.owed)
    && (forall t: Task :: t.from == i ==> (t in nj'.tasks <==> t in nj.tasks))
    && (nj'.reqTs == nj.reqTs || nj'.reqTs == None || (nj.reqTs == None && nj.clock < nj'.reqTs.value))
  }

  lemma VoterKeepsPair(ni: Cs, nj: Cs, nj': Cs, net: set<Envelope>, net': set<Envelope>, l: Loc)
    requires Pair(ni, nj, net, l)
    requires SameBetween(net, net', ni.me, nj.me)
    requires VoterStays(nj, nj', ni.me)
    ensures Pair(ni, nj', net', l)
  {
  }

  /** The requester neither requests, nor releases, nor takes this voter off its list. */
  lemma RequesterKeepsPair(ni: Cs, ni': Cs, nj: Cs, net: set<Envelope>, net': set<Envelope>, l: Loc)
    requires Pair(ni, nj, net, l)
    requires SameBetween(net, net', ni.me, nj.me)
    requires ni'.me == ni.me && ni'.reqTs == ni.reqTs && (ni'.phase == Idle <==> ni.phase == Idle)
    requires nj.me in ni'.pending <==> nj.me in ni.pending
    ensures Pair(ni', nj, net', l)
  {
  }
  /** Everything the pair lemmas below may use about the state before the step. */
  ghost predicate Around(w: World, s: Step, i: Addr, j: Addr, l: Loc) {
    && Base(w) && Enabled(w, s)
    && Live(w, i) && Live(w, j) && i != j
    && PairOk(w, i, j, l)
  }

  lemma BystanderStep(w: World, s: Step, i: Addr, j: Addr, l: Loc)
    requires Around(w, s, i, j, l) && Actor(s) != i && Actor(s) != j
    ensures Pair(w.nodes[i], w.nodes[j], Next(w, s).net, l)
  {
    SentIsOk(w, s);
    VoterKeepsPair(w.nodes[i], w.nodes[j], w.nodes[j], w.net, Next(w, s).net, l);
  }

  predicate TouchesAsVoter(w: World, s: Step, i: Addr)
    requires Enabled(w, s)
  {
    match s
    case Collect(p) => w.nodes[p].phase == InCs && i in w.nodes[p].deferred
    case Clear(p) => i in w.nodes[p].deferred
    case FlushReply(_, q) => q == i
    case Receive(e) => e.from == i && e.body.CsRequest?
    case Load(_, t) => t.from == i
    case Act(_, t) => t.from == i
    case _ => false
  }

  lemma UntouchedVoterStays(w: World, s: Step, i: Addr)
    requires Base(w) && Enabled(w, s) && i != Actor(s) && !TouchesAsVoter(w, s, i)
    ensures VoterStays(w.nodes[Actor(s)], After(w, s), i)
  {
    var nj := w.nodes[Actor(s)];
    assert NodeOk(nj, Actor(s), w.nodes.Keys, w.next);
  }

  lemma UntouchedVoterStep(w: World, s: Step, i: Addr, j: Addr, l: Loc)
    requires Around(w, s, i, j, l) && Actor(s) == j && !s.Crash? && !TouchesAsVoter(w, s, i)
    ensures Pair(w.nodes[i], After(w, s), Next(w, s).net, l)
  {
    SentIsOk(w, s);
    UntouchedVoterStays(w, s, i);
    VoterKeepsPair(w.nodes[i], w.nodes[j], After(w, s), w.net, Next(w, s).net, l);
  }

  lemma VoterTakesRequest(w: World, s: Step, i: Addr, j: Addr, l: Loc)
    requires Around(w, s, i, j, l) && Actor(s) == j
    requires s.Receive? && s.e.from == i && s.e.body.CsRequest?
    ensures Pair(w.nodes[i], After(w, s), Next(w, s).net, Moved(w, s, i, j, l))
  {
    assert NodeOk(w.nodes[j], j, w.nodes.Keys, w.next);
    assert NodeOk(w.nodes[i], i, w.nodes.Keys, w.next);
  }

  lemma VoterLoadsStamp(w: World, s: Step, i: Addr, j: Addr, l: Loc)
    requires Around(w, s, i, j, l) && Actor(s) == j && s.Load? && s.t.from == i
    ensures Pair(w.nodes[i], After(w, s), Next(w, s).net, l)
  {
    assert NodeOk(w.nodes[j], j, w.nodes.Keys, w.next);
    assert NodeOk(w.nodes[i], i, w.nodes.Keys, w.next);
  }

  lemma VoterActs(w: World, s: Step, i: Addr, j: Addr, l: Loc)
    requires Around(w, s, i, j, l) && Actor(s) == j && s.Act? && s.t.from == i
    ensures Pair(w.nodes[i], After(w, s), Next(w, s).net, Moved(w, s, i, j, l))
  {
    assert NodeOk(w.nodes[j], j, w.nodes.Keys, w.next);
    assert NodeOk(w.nodes[i], i, w.nodes.Keys, w.next);
  }

  lemma VoterSettles(w: World, s: Step, i: Addr, j: Addr, l: Loc)
    requires Around(w, s, i, j, l) && Actor(s) == j
    requires (s.FlushReply? && s.q == i) || ((s.Collect? || s.Clear?) && TouchesAsVoter(w, s, i))
    ensures Pair(w.nodes[i], After(w, s), Next(w, s).net, Moved(w, s, i, j, l))
  {
    assert NodeOk(w.nodes[j], j, w.nodes.Keys, w.next);
    assert NodeOk(w.nodes[i], i, w.nodes.Keys, w.next);
  }

  predicate TouchesAsRequester(w: World, s: Step, j: Addr)
    requires Enabled(w, s)
  {
    match s
    case Request(p) => w.nodes[p].phase == Idle
    case Collect(p) => w.nodes[p].phase == InCs
    case Receive(e) => e.from == j && e.body.CsReply?
    case _ => false
  }

  lemma UntouchedRequesterStep(w: World, s: Step, i: Addr, j: Addr, l: Loc)
    requires Around(w, s, i, j, l) && Actor(s) == i && !s.Crash? && !TouchesAsRequester(w, s, j)
    ensures Pair(After(w, s), w.nodes[j], Next(w, s).net, l)
  {
    var ni := w.nodes[i];
    SentIsOk(w, s);
    assert NodeOk(ni, i, w.nodes.Keys, w.next);
    RequesterKeepsPair(ni, After(w, s), w.nodes[j], w.net, Next(w, s).net, l);
  }

  lemma RequesterRequestsOrReleases(w: World, s: Step, i: Addr, j: Addr, l: Loc)
    requires Around(w, s, i, j, l) && Actor(s) == i && (s.Request? || s.Collect?) && TouchesAsRequester(w, s, j)
    ensures Pair(After(w, s), w.nodes[j], Next(w, s).net, Moved(w, s, i, j, l))
  {
    assert NodeOk(w.nodes[i], i, w.nodes.Keys, w.next);
    assert NodeOk(w.nodes[j], j, w.nodes.Keys, w.next);
  }

  lemma RequesterTakesReply(w: World, s: Step, i: Addr, j: Addr, l: Loc)
    requires Around(w, s, i, j, l) && Actor(s) == i && s.Receive? && s.e.from == j && s.e.body.CsReply?
    ensures Pair(After(w, s), w.nodes[j], Next(w, s).net, Moved(w, s, i, j, l))
  {
    assert NodeOk(w.nodes[i], i, w.nodes.Keys, w.next);
  }

  lemma VoterStep(w: World, s: Step, i: Addr, j: Addr, l: Loc)
    requires Around(w, s, i, j, l) && Actor(s) == j && !s.Crash?
    ensures Pair(w.nodes[i], After(w, s), Next(w, s).net, Moved(w, s, i, j, l))
  {
    if !TouchesAsVoter(w, s, i) {
      UntouchedVoterStep(w, s, i, j, l);
    } else {
      match s
      case Receive(_) => VoterTakesRequest(w, s, i, j, l);
      case Load(_, _) => VoterLoadsStamp(w, s, i, j, l);
      case Act(_, _) => VoterActs(w, s, i, j, l);
      case _ => VoterSettles(w, s, i, j, l);
    }
  }

  lemma RequesterStep(w: World, s: Step, i: Addr, j: Addr, l: Loc)
    requires Around(w, s, i, j, l) && Actor(s) == i && !s.Crash?
    ensures Pair(After(w, s), w.nodes[j], Next(w, s).net, Moved(w, s, i, j, l))
  {
    if !TouchesAsRequester(w, s, j) {
      UntouchedRequesterStep(w, s, i, j, l);
    } else if s.Receive? {
      RequesterTakesReply(w, s, i, j, l);
    } else {
      RequesterRequestsOrReleases(w, s, i, j, l);
    }
  }

  lemma StepKeepsNeighbor(w: World, s: Step, i: Addr, j: Addr)
    requires Base(w) && Enabled(w, s) && i in w.nodes && j in w.nodes[i].neighbors && j !in w.dead
    ensures j in Next(w, s).nodes[i].neighbors
  {
  }

  lemma StepKeepsPair(w: World, s: Step, i: Addr, j: Addr, l: Loc)
    requires Around(w, s, i, j, l) && Live(Next(w, s), i) && Live(Next(w, s), j)
    ensures PairOk(Next(w, s), i, j, Moved(w, s, i, j, l))
  {
    StepKeepsNeighbor(w, s, i, j);
    if Actor(s) == j {
      VoterStep(w, s, i, j, l);
    } else if Actor(s) == i {
      RequesterStep(w, s, i, j, l);
    } else {
      BystanderStep(w, s, i, j, l);
    }
  }

  lemma StepKeepsInvBut(w: World, s: Step, loc: Where, gone: set<(Addr, Addr)>) returns (loc': Where)
    requires InvBut(w, loc, gone) && Enabled(w, s)
    ensures InvBut(Next(w, s), loc', gone)
    ensures forall i, j :: loc'(i, j) == Moved(w, s, i, j, loc(i, j))
  {
    loc' := (i, j) => Moved(w, s, i, j, loc(i, j));
    StepKeepsBase(w, s);
    var v := Next(w, s);
    forall i, j | Live(v, i) && Live(v, j) && i != j && (i, j) !in gone
      ensures PairOk(v, i, j, loc'(i, j))
    {
      StepKeepsPair(w, s, i, j, loc(i, j));
    }
  }

  lemma StepKeepsInv(w: World, s: Step, loc: Where) returns (loc': Where)
    requires Inv(w, loc) && Enabled(w, s)
    ensures Inv(Next(w, s), loc')
    ensures forall i, j :: loc'(i, j) == Moved(w, s, i, j, loc(i, j))
  {
    loc' := StepKeepsInvBut(w, s, loc, {});
    var v := Next(w, s);
    forall i, j | Live(v, i) && Live(v, j) && i != j
      ensures PairOk(v, i, j, loc'(i, j))
    {
      assert (i, j) !in {};
    }
  }

  lemma InitInv(w: World) returns (loc: Where)
    requires Init(w)
    ensures Inv(w, loc)
  {
    loc := (i, j) => Free;
  }

  /** Every state of every run satisfies the invariant. */
  lemma RunInv(ws: seq<World>, ss: seq<Step>, k: nat) returns (loc: Where)
    requires IsRun(ws, ss) && k < |ws|
    ensures Inv(ws[k], loc)
  {
    if k == 0 {
      loc := InitInv(ws[0]);
    } else {
      loc := RunInv(ws, ss, k - 1);
      assert StepAt(ws, ss, k - 1);
      loc := StepKeepsInv(ws[k - 1], ss[k - 1], loc);
    }
  }
}
