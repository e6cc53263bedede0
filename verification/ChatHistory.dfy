/** The chat log: re-sorted by Lamport stamp at each arrival, and so in causal order. */
module ChatHistory {
  import opened Types

  /** `room` is absent when the message names none. */
  datatype Chat = Chat(id: nat, from: Addr, stamp: int, room: Option<Room>, text: string)

  predicate Sorted(xs: seq<Chat>) {
    forall i, j :: 0 <= i < j < |xs| ==> xs[i].stamp <= xs[j].stamp
  }

  /** The entries with one stamp, in the order they stand. */
  function WithStamp(xs: seq<Chat>, t: int): seq<Chat> {
    if xs == [] then []
    else WithStamp(xs[..|xs| - 1], t) + (if xs[|xs| - 1].stamp == t then [xs[|xs| - 1]] else [])
  }

  ghost predicate SameByStamp(xs: seq<Chat>, ys: seq<Chat>) {
    forall t :: WithStamp(ys, t) == WithStamp(xs, t)
  }

  /** ys is xs sorted by stamp, entries of equal stamp keeping their order. */
  ghost predicate StableSortOf(xs: seq<Chat>, ys: seq<Chat>) {
    Sorted(ys) && SameByStamp(xs, ys)
  }

  /** x goes behind everything that is not later. */
  function Insert(xs: seq<Chat>, x: Chat): seq<Chat> {
    if xs == [] || xs[|xs| - 1].stamp <= x.stamp then xs + [x]
    else Insert(xs[..|xs| - 1], x) + [xs[|xs| - 1]]
  }

  function StableSort(xs: seq<Chat>): seq<Chat> {
    if xs == [] then [] else Insert(StableSort(xs[..|xs| - 1]), xs[|xs| - 1])
  }

  lemma WithStampOfAppend(xs: seq<Chat>, x: Chat, t: int)
    ensures WithStamp(xs + [x], t) == WithStamp(xs, t) + (if x.stamp == t then [x] else [])
  {
    assert (xs + [x])[..|xs|] == xs;
  }

  lemma {:induction false} InsertMembers(xs: seq<Chat>, x: Chat)
    ensures multiset(Insert(xs, x)) == multiset(xs) + multiset{x}
  {
    if xs != [] {
      assert xs == xs[..|xs| - 1] + [xs[|xs| - 1]];
      InsertMembers(xs[..|xs| - 1], x);
    }
  }

  lemma {:induction false} InsertSorted(xs: seq<Chat>, x: Chat)
    requires Sorted(xs)
    ensures Sorted(Insert(xs, x))
  {
    if xs != [] && xs[|xs| - 1].stamp > x.stamp {
      var init, last := xs[..|xs| - 1], xs[|xs| - 1];
      InsertSorted(init, x);
      InsertMembers(init, x);
      forall i | 0 <= i < |Insert(init, x)|
        ensures Insert(init, x)[i].stamp <= last.stamp
      {
        assert Insert(init, x)[i] in multiset(Insert(init, x));
        assert Insert(init, x)[i] in init || Insert(init, x)[i] == x;
      }
    }
  }

  lemma {:induction false} InsertStamps(xs: seq<Chat>, x: Chat, t: int)
    ensures WithStamp(Insert(xs, x), t) == WithStamp(xs, t) + (if x.stamp == t then [x] else [])
  {
    if xs == [] || xs[|xs| - 1].stamp <= x.stamp {
      WithStampOfAppend(xs, x, t);
    } else {
      var init, last := xs[..|xs| - 1], xs[|xs| - 1];
      InsertStamps(init, x, t);
      WithStampOfAppend(Insert(init, x), last, t);
    }
  }

  lemma {:induction false} StableSortIsStable(xs: seq<Chat>)
    ensures StableSortOf(xs, StableSort(xs))
    ensures multiset(StableSort(xs)) == multiset(xs)
  {
    if xs != [] {
      var init, last := xs[..|xs| - 1], xs[|xs| - 1];
      assert xs == init + [last];
      StableSortIsStable(init);
      forall t
        ensures WithStamp(StableSort(xs), t) == WithStamp(xs, t)
      {
        InsertStamps(StableSort(init), last, t);
      }
      InsertSorted(StableSort(init), last);
      InsertMembers(StableSort(init), last);
    }
  }

  lemma {:induction false} LastOfLatestStamp(xs: seq<Chat>, x: Chat)
    requires Sorted(xs) && xs != [] && x in xs && x.stamp >= xs[|xs| - 1].stamp
    ensures WithStamp(xs, x.stamp) != [] && WithStamp(xs, x.stamp)[|WithStamp(xs, x.stamp)| - 1] == xs[|xs| - 1]
  {
    var i :| 0 <= i < |xs| && xs[i] == x;
    assert xs[|xs| - 1].stamp == x.stamp;
  }

  lemma {:induction false} StampsShowMembers(xs: seq<Chat>, x: Chat)
    ensures x in WithStamp(xs, x.stamp) <==> x in xs
  {
    if xs != [] {
      assert xs == xs[..|xs| - 1] + [xs[|xs| - 1]];
      StampsShowMembers(xs[..|xs| - 1], x);
    }
  }

  lemma SameMembers(ys: seq<Chat>, zs: seq<Chat>, x: Chat)
    requires WithStamp(ys, x.stamp) == WithStamp(zs, x.stamp) && x in ys
    ensures x in zs
  {
    StampsShowMembers(ys, x);
    StampsShowMembers(zs, x);
  }

  lemma SameLast(ys: seq<Chat>, zs: seq<Chat>)
    requires Sorted(ys) && Sorted(zs) && ys != [] && zs != []
    requires var y, z := ys[|ys| - 1], zs[|zs| - 1];
             WithStamp(ys, y.stamp) == WithStamp(zs, y.stamp) && WithStamp(ys, z.stamp) == WithStamp(zs, z.stamp)
    ensures ys[|ys| - 1] == zs[|zs| - 1]
  {
    var y, z := ys[|ys| - 1], zs[|zs| - 1];
    SameMembers(ys, zs, y);
    SameMembers(zs, ys, z);
    LastOfLatestStamp(ys, y);
    LastOfLatestStamp(zs, y);
  }

  lemma SameBeforeLast(a: seq<Chat>, b: seq<Chat>, x: Chat, t: int)
    requires WithStamp(a + [x], t) == WithStamp(b + [x], t)
    ensures WithStamp(a, t) == WithStamp(b, t)
  {
    WithStampOfAppend(a, x, t);
    WithStampOfAppend(b, x, t);
    CancelLast(WithStamp(a, t), WithStamp(b, t), if x.stamp == t then [x] else []);
  }

  lemma CancelLast(a: seq<Chat>, b: seq<Chat>, end: seq<Chat>)
    requires a + end == b + end
    ensures a == b
  {
    assert |a| == |b|;
    assert a == (a + end)[..|a|] && b == (b + end)[..|b|];
  }

  lemma SameByStampBeforeLast(a: seq<Chat>, b: seq<Chat>, x: Chat)
    requires SameByStamp(a + [x], b + [x])
    ensures SameByStamp(a, b)
  {
    forall t
      ensures WithStamp(b, t) == WithStamp(a, t)
    {
      SameBeforeLast(a, b, x, t);
    }
  }

  lemma SameByStampLast(ys: seq<Chat>, zs: seq<Chat>)
    requires Sorted(ys) && Sorted(zs) && SameByStamp(ys, zs) && ys != [] && zs != []
    ensures ys[|ys| - 1] == zs[|zs| - 1]
  {
    var y, z := ys[|ys| - 1], zs[|zs| - 1];
    assert WithStamp(ys, y.stamp) == WithStamp(zs, y.stamp);
    assert WithStamp(ys, z.stamp) == WithStamp(zs, z.stamp);
    SameLast(ys, zs);
  }

  lemma SameByStampEmpty(ys: seq<Chat>, zs: seq<Chat>)
    requires SameByStamp(ys, zs) && zs == []
    ensures ys == []
  {
    var t := if ys == [] then 0 else ys[|ys| - 1].stamp;
    assert WithStamp(zs, t) == WithStamp(ys, t);
  }

  /** Sortedness and the order within each stamp leave only one list. */
  lemma {:induction false} StableSortIsUnique(ys: seq<Chat>, zs: seq<Chat>)
    requires Sorted(ys) && Sorted(zs) && SameByStamp(ys, zs)
    ensures ys == zs
  {
    if zs == [] {
      SameByStampEmpty(ys, zs);
    } else if ys == [] {
      SameByStampEmpty(zs, ys);
    } else {
      SameByStampLast(ys, zs);
      var ys', zs', x := ys[..|ys| - 1], zs[..|zs| - 1], ys[|ys| - 1];
      assert ys == ys' + [x] && zs == zs' + [x];
      SameByStampBeforeLast(ys', zs', x);
      StableSortIsUnique(ys', zs');
    }
  }

  /** Appending to the log and sorting it again gives the stable sort of all arrivals so far. */
  lemma ResortingIsSorting(arrivals: seq<Chat>, x: Chat)
    ensures StableSort(StableSort(arrivals) + [x]) == StableSort(arrivals + [x])
  {
    StableSortIsStable(arrivals);
    StableSortIsStable(StableSort(arrivals) + [x]);
    StableSortIsStable(arrivals + [x]);
    var a, b := StableSort(StableSort(arrivals) + [x]), StableSort(arrivals + [x]);
    forall t
      ensures WithStamp(a, t) == WithStamp(b, t)
    {
      WithStampOfAppend(StableSort(arrivals), x, t);
      WithStampOfAppend(arrivals, x, t);
      assert WithStamp(StableSort(arrivals), t) == WithStamp(arrivals, t);
    }
    StableSortIsUnique(a, b);
  }

  /* ---- All peers chatting ---- */

  /** One peer; `room` is the room it is in, `history` its log. */
  datatype Chatter = Chatter(clock: int, room: Option<Room>, history: seq<Chat>)

  datatype Talk = Talk(peers: map<Addr, Chatter>, said: set<Chat>)

  datatype TalkStep =
    | Say(p: Addr, id: nat, text: string)
    | Hear(p: Addr, chat: Chat)
    | Busy(p: Addr, clock: int)
    | Switch(p: Addr, room: Option<Room>)

  predicate TalkEnabled(w: Talk, s: TalkStep) {
    match s
    case Say(p, _, _) => p in w.peers
    case Hear(p, chat) => p in w.peers && chat in w.said
    case Busy(p, clock) => p in w.peers && w.peers[p].clock <= clock
    case Switch(p, _) => p in w.peers
  }

  /** A chat is logged if it names no room or the one the peer is in. */
  predicate Shown(n: Chatter, chat: Chat) {
    chat.room.None? || chat.room == n.room
  }

  function HearChat(n: Chatter, chat: Chat): Chatter {
    var clock := (if n.clock < chat.stamp then chat.stamp else n.clock) + 1;
    if Shown(n, chat) then Chatter(clock, n.room, StableSort(n.history + [chat])) else n.(clock := clock)
  }

  function TalkNext(w: Talk, s: TalkStep): Talk
    requires TalkEnabled(w, s)
  {
    match s
    case Say(p, id, text) =>
      var n := w.peers[p];
      Talk(w.peers[p := n.(clock := n.clock + 1)], w.said + {Chat(id, p, n.clock + 1, n.room, text)})
    case Hear(p, chat) => w.(peers := w.peers[p := HearChat(w.peers[p], chat)])
    case Busy(p, clock) => w.(peers := w.peers[p := w.peers[p].(clock := clock)])
    case Switch(p, room) => w.(peers := w.peers[p := w.peers[p].(room := room)])
  }

  predicate TalkInit(w: Talk) {
    w.said == {} && forall p :: p in w.peers ==> w.peers[p].history == []
  }

  predicate TalkStepAt(ws: seq<Talk>, ss: seq<TalkStep>, k: nat) {
    k < |ss| && k + 1 < |ws| && TalkEnabled(ws[k], ss[k]) && ws[k + 1] == TalkNext(ws[k], ss[k])
  }

  predicate IsTalk(ws: seq<Talk>, ss: seq<TalkStep>) {
    |ws| == |ss| + 1 && TalkInit(ws[0]) && forall k :: 0 <= k < |ss| ==> TalkStepAt(ws, ss, k)
  }

  /** The room p last switched to before step k, or else started in. */
  function RoomAt(ws: seq<Talk>, ss: seq<TalkStep>, k: nat, p: Addr): Option<Room>
    requires k <= |ss| < |ws| && p in ws[0].peers
  {
    if k == 0 then ws[0].peers[p].room
    else if ss[k - 1].Switch? && ss[k - 1].p == p then ss[k - 1].room
    else RoomAt(ws, ss, k - 1, p)
  }

  lemma {:induction false} RoomIsKept(ws: seq<Talk>, ss: seq<TalkStep>, k: nat, p: Addr)
    requires IsTalk(ws, ss) && k < |ws| && p in ws[0].peers
    ensures p in ws[k].peers && ws[k].peers[p].room == RoomAt(ws, ss, k, p)
  {
    if k > 0 {
      RoomIsKept(ws, ss, k - 1, p);
      assert TalkStepAt(ws, ss, k - 1);
    }
  }

  /** In step k peer p handles a chat that names no room or the one p is in at that moment. */
  predicate ArrivesAt(ws: seq<Talk>, ss: seq<TalkStep>, k: nat, p: Addr)
    requires k < |ss| < |ws|
  {
    && ss[k].Hear? && ss[k].p == p && p in ws[0].peers
    && (ss[k].chat.room.None? || ss[k].chat.room == RoomAt(ws, ss, k, p))
  }

  /** The chats that p handled so before step k, in the order it did. */
  function Arrivals(ws: seq<Talk>, ss: seq<TalkStep>, k: nat, p: Addr): seq<Chat>
    requires k <= |ss| < |ws|
  {
    if k == 0 then []
    else Arrivals(ws, ss, k - 1, p) + if ArrivesAt(ws, ss, k - 1, p) then [ss[k - 1].chat] else []
  }

  /** How many of the steps before k were that for this chat. */
  function TimesHandled(ws: seq<Talk>, ss: seq<TalkStep>, k: nat, p: Addr, chat: Chat): nat
    requires k <= |ss| < |ws|
  {
    if k == 0 then 0
    else TimesHandled(ws, ss, k - 1, p, chat) + if ArrivesAt(ws, ss, k - 1, p) && ss[k - 1].chat == chat then 1 else 0
  }

  /** In step k peer p says the chat: with its name, in its room, and with a stamp above its clock, which
      becomes the clock. */
  predicate SaysAt(ws: seq<Talk>, ss: seq<TalkStep>, k: nat, p: Addr, chat: Chat) {
    && k < |ss| < |ws| && p in ws[0].peers && p in ws[k].peers && p in ws[k + 1].peers
    && ss[k] == Say(p, chat.id, chat.text) && chat in ws[k + 1].said
    && chat.from == p && chat.room == RoomAt(ws, ss, k, p)
    && ws[k].peers[p].clock < chat.stamp == ws[k + 1].peers[p].clock
  }

  lemma {:induction false} PeersStay(ws: seq<Talk>, ss: seq<TalkStep>, k: nat)
    requires IsTalk(ws, ss) && k < |ws|
    ensures ws[k].peers.Keys == ws[0].peers.Keys
  {
    if k > 0 {
      PeersStay(ws, ss, k - 1);
      assert TalkStepAt(ws, ss, k - 1);
    }
  }

  /** Each step in which a peer says something says one chat, which everybody can hear from then on. */
  lemma SomethingIsSaid(ws: seq<Talk>, ss: seq<TalkStep>, k: nat) returns (chat: Chat)
    requires IsTalk(ws, ss) && k < |ss| && ss[k].Say?
    ensures SaysAt(ws, ss, k, ss[k].p, chat) && ws[k + 1].said == ws[k].said + {chat}
  {
    assert TalkStepAt(ws, ss, k);
    PeersStay(ws, ss, k);
    RoomIsKept(ws, ss, k, ss[k].p);
    var n := ws[k].peers[ss[k].p];
    chat := Chat(ss[k].id, ss[k].p, n.clock + 1, n.room, ss[k].text);
  }

  /** p said or handled the chat before step k. */
  ghost predicate Knew(ws: seq<Talk>, ss: seq<TalkStep>, k: nat, p: Addr, chat: Chat)
    requires k <= |ss|
  {
    exists m :: 0 <= m < k && (ss[m] == Hear(p, chat) || SaysAt(ws, ss, m, p, chat))
  }

  /** b was said, before step k, by a peer that had said or handled a. */
  ghost predicate DependsOn(ws: seq<Talk>, ss: seq<TalkStep>, k: nat, a: Chat, b: Chat)
    requires k <= |ss|
  {
    exists m :: 0 <= m < k && SaysAt(ws, ss, m, b.from, b) && Knew(ws, ss, m, b.from, a)
  }

  lemma {:induction false} KnownIsPast(ws: seq<Talk>, ss: seq<TalkStep>, k: nat, p: Addr, chat: Chat)
    requires IsTalk(ws, ss) && k <= |ss| && p in ws[k].peers && Knew(ws, ss, k, p, chat)
    ensures chat.stamp <= ws[k].peers[p].clock
  {
    var m :| 0 <= m < k && (ss[m] == Hear(p, chat) || SaysAt(ws, ss, m, p, chat));
    assert TalkStepAt(ws, ss, k - 1);
    if m < k - 1 {
      KnownIsPast(ws, ss, k - 1, p, chat);
    }
  }

  lemma CauseIsEarlier(ws: seq<Talk>, ss: seq<TalkStep>, k: nat, a: Chat, b: Chat)
    requires IsTalk(ws, ss) && k <= |ss| && DependsOn(ws, ss, k, a, b)
    ensures a.stamp < b.stamp
  {
    var m :| 0 <= m < k && SaysAt(ws, ss, m, b.from, b) && Knew(ws, ss, m, b.from, a);
    KnownIsPast(ws, ss, m, b.from, a);
  }

  lemma {:induction false} LogSortsArrivals(ws: seq<Talk>, ss: seq<TalkStep>, k: nat, p: Addr)
    requires IsTalk(ws, ss) && k < |ws| && p in ws[k].peers
    ensures p in ws[0].peers && ws[k].peers[p].history == StableSort(Arrivals(ws, ss, k, p))
  {
    if k > 0 {
      assert TalkStepAt(ws, ss, k - 1);
      LogSortsArrivals(ws, ss, k - 1, p);
      RoomIsKept(ws, ss, k - 1, p);
      var before := Arrivals(ws, ss, k - 1, p);
      if ArrivesAt(ws, ss, k - 1, p) {
        ResortingIsSorting(before, ss[k - 1].chat);
      } else {
        assert before + [] == before;
      }
    }
  }

  lemma CountOfAppend(xs: seq<Chat>, x: Chat, chat: Chat)
    ensures multiset(xs + [x])[chat] == multiset(xs)[chat] + if x == chat then 1 else 0
  {
  }

  lemma {:induction false} ArrivalsCount(ws: seq<Talk>, ss: seq<TalkStep>, k: nat, p: Addr, chat: Chat)
    requires k <= |ss| < |ws|
    ensures multiset(Arrivals(ws, ss, k, p))[chat] == TimesHandled(ws, ss, k, p, chat)
  {
    if k > 0 {
      ArrivalsCount(ws, ss, k - 1, p, chat);
      var before, now := Arrivals(ws, ss, k - 1, p), Arrivals(ws, ss, k, p);
      if ArrivesAt(ws, ss, k - 1, p) {
        assert now == before + [ss[k - 1].chat];
        CountOfAppend(before, ss[k - 1].chat, chat);
        assert multiset(now)[chat] == TimesHandled(ws, ss, k, p, chat);
      } else {
        assert now == before;
      }
    }
  }

  /** The log is at all times the stable sort, by stamp, of the chats that p handled in the room it was
      in or without a room, in order of arrival. */
  lemma HistoryIsStableSort(ws: seq<Talk>, ss: seq<TalkStep>, k: nat, p: Addr)
    requires IsTalk(ws, ss) && k < |ws| && p in ws[k].peers
    ensures StableSortOf(Arrivals(ws, ss, k, p), ws[k].peers[p].history)
  {
    LogSortsArrivals(ws, ss, k, p);
    StableSortIsStable(Arrivals(ws, ss, k, p));
  }

  /** So nothing is lost and nothing added: each chat stands in the log as often as p handled it so. */
  lemma EachChatIsLogged(ws: seq<Talk>, ss: seq<TalkStep>, k: nat, p: Addr, chat: Chat)
    requires IsTalk(ws, ss) && k < |ws| && p in ws[k].peers
    ensures multiset(ws[k].peers[p].history)[chat] == TimesHandled(ws, ss, k, p, chat)
  {
    LogSortsArrivals(ws, ss, k, p);
    StableSortIsStable(Arrivals(ws, ss, k, p));
    ArrivalsCount(ws, ss, k, p, chat);
  }

  /** Each chat of the chain was said by a peer that had said or handled the one before. */
  ghost predicate IsChain(ws: seq<Talk>, ss: seq<TalkStep>, k: nat, chain: seq<Chat>)
    requires k <= |ss|
  {
    |chain| >= 2 && forall i :: 0 < i < |chain| ==> DependsOn(ws, ss, k, chain[i - 1], chain[i])
  }

  lemma {:induction false} ChainRises(ws: seq<Talk>, ss: seq<TalkStep>, k: nat, chain: seq<Chat>)
    requires IsTalk(ws, ss) && k <= |ss| && IsChain(ws, ss, k, chain)
    ensures chain[0].stamp < chain[|chain| - 1].stamp
  {
    var last := |chain| - 1;
    CauseIsEarlier(ws, ss, k, chain[last - 1], chain[last]);
    if last > 1 {
      ChainRises(ws, ss, k, chain[..last]);
    }
  }

  /** If b depends on a through any chain, a stands before b wherever both are logged. */
  lemma HistoryIsCausal(ws: seq<Talk>, ss: seq<TalkStep>, k: nat, p: Addr, chain: seq<Chat>, i: nat, j: nat)
    requires IsTalk(ws, ss) && k < |ws| && p in ws[k].peers && IsChain(ws, ss, k, chain)
    requires i < |ws[k].peers[p].history| && ws[k].peers[p].history[i] == chain[0]
    requires j < |ws[k].peers[p].history| && ws[k].peers[p].history[j] == chain[|chain| - 1]
    ensures i < j
  {
    ChainRises(ws, ss, k, chain);
    HistoryIsStableSort(ws, ss, k, p);
  }
}
