/** Why commits need a discipline: with neither in-order delivery nor the wait before a commit, two
    transactions pin the same room. */
module UnorderedCommit {
  import opened Types
  import opened CriticalSection
  import opened MutexSystem
  import opened Transactions
  import opened Replication
  import opened PinInvariant
  import opened Outcomes
  import opened TwoPeers

  const PIN_X := PinText("r", "x")
  const PIN_Y := PinText("r", "y")

  const ASK_1 := Env(0, 1, 2, CsRequest(1))
  const YES_1 := Env(1, 2, 1, CsReply(3))
  const SENT_1 := Env(3, 1, 2, Data(5, TxCommit(0, "a", [PIN_X])))
  const ASK_2 := Env(6, 2, 1, CsRequest(4))
  const YES_2 := Env(7, 1, 2, CsReply(7))
  const SENT_2 := Env(9, 2, 1, Data(9, TxCommit(1, "b", [PIN_Y])))

  const STATE_1 := Two(Node(1, 1, Requesting, Some(1), {}, {}), IDLE_2, {ASK_1}, 1)
  const STATE_2 := Two(Node(1, 1, Requesting, Some(1), {}, {}), Node(2, 3, Idle, None, {}, {0}), {YES_1}, 2)
  const STATE_3 := Two(Node(1, 4, InCs, Some(1), {}, {1}), Node(2, 3, Idle, None, {}, {0}), {}, 3)
  const STATE_4 := Two(Node(1, 5, InCs, Some(1), {}, {1}), Node(2, 3, Idle, None, {}, {0}), {SENT_1}, 4)
  const LEAVING := Two(Node(1, 5, Idle, None, {}, {1}).(releasing := true), Node(2, 3, Idle, None, {}, {0}), {SENT_1}, 5)
  const STATE_5 := Two(Node(1, 5, Idle, None, {}, {1}), Node(2, 3, Idle, None, {}, {0}), {SENT_1}, 6)
  const STATE_6 := Two(Node(1, 5, Idle, None, {}, {1}), Node(2, 4, Requesting, Some(4), {}, {0}), {SENT_1, ASK_2}, 7)
  const STATE_7 := Two(Node(1, 7, Idle, None, {}, {1, 6}), Node(2, 4, Requesting, Some(4), {}, {0}), {SENT_1, YES_2}, 8)
  const STATE_8 := Two(Node(1, 7, Idle, None, {}, {1, 6}), Node(2, 8, InCs, Some(4), {}, {0, 7}), {SENT_1}, 9)
  const STATE_9 := Two(Node(1, 7, Idle, None, {}, {1, 6}), Node(2, 9, InCs, Some(4), {}, {0, 7}), {SENT_1, SENT_2}, 10)

  function Start(user: string): Replica {
    Replica(user, map[], map[], map[], None)
  }

  function Open(user: string, tx: TxId, ops: seq<Op>): Replica {
    Replica(user, map[], map[], map[tx := TxRecord(user, ops, Active)], Some(tx))
  }

  function Pinned(user: string, tx: TxId, text: string): Replica {
    Replica(user, map[], map["r" := Pin(text, user, tx)], map[tx := TxRecord(user, [PinText("r", text)], Committed)], Some(tx))
  }

  const LOG_1: map<TxId, Commit> := map[0 := Commit(1, "a", [PIN_X], Priority(1, 1))]
  const LOG_2: map<TxId, Commit> := map[0 := Commit(1, "a", [PIN_X], Priority(1, 1)), 1 := Commit(2, "b", [PIN_Y], Priority(4, 2))]
  const OWNERS: map<TxId, Addr> := map[0 := 1, 1 := 2]

  function Sys(w: World, a: Replica, b: Replica, owner: map<TxId, Addr>, log: map<TxId, Commit>): System {
    System(w, map[1 := a, 2 := b], owner, log, {})
  }

  /** The state after both have opened their transactions, with the given world. */
  function Opened(w: World): System {
    Sys(w, Open("a", 0, [PIN_X]), Open("b", 1, [PIN_Y]), OWNERS, map[])
  }

  function OneDone(w: World): System {
    Sys(w, Pinned("a", 0, "x"), Open("b", 1, [PIN_Y]), OWNERS, LOG_1)
  }

  lemma ProtocolStep(s: System, x: Step, w: World)
    requires TxEnabled(s, Protocol(x)) && Next(s.w, x) == w
    ensures TxNext(s, Protocol(x)) == s.(w := w)
  {
  }

  lemma Extend(before: seq<System>, steps: seq<TxStep>, t: TxStep, s: System) returns (ss: seq<System>, ts: seq<TxStep>)
    requires IsTxRun(before, steps) && TxEnabled(before[|steps|], t) && s == TxNext(before[|steps|], t)
    ensures IsTxRun(ss, ts) && ss[|ts|] == s
  {
    ss, ts := before + [s], steps + [t];
    forall k | 0 <= k < |ts|
      ensures TxStepAt(ss, ts, k)
    {
      assert k < |steps| ==> TxStepAt(before, steps, k);
    }
  }

  /** The states before both transactions are open. */
  function Opening(a: Replica, b: Replica, owner: map<TxId, Addr>): System {
    Sys(START, a, b, owner, map[])
  }

  lemma Begins()
    ensures TxNext(Opening(Start("a"), Start("b"), map[]), BeginTx(1, 0)) == Opening(Open("a", 0, []), Start("b"), map[0 := 1])
    ensures TxNext(Opening(Open("a", 0, [PIN_X]), Start("b"), map[0 := 1]), BeginTx(2, 1))
         == Opening(Open("a", 0, [PIN_X]), Open("b", 1, []), OWNERS)
  {
    assert map[0 := 1][1 := 2] == OWNERS;
    assert NextReplicas(Opening(Start("a"), Start("b"), map[]), BeginTx(1, 0)) == map[1 := Open("a", 0, []), 2 := Start("b")];
    assert NextReplicas(Opening(Open("a", 0, [PIN_X]), Start("b"), map[0 := 1]), BeginTx(2, 1))
        == map[1 := Open("a", 0, [PIN_X]), 2 := Open("b", 1, [])];
  }

  lemma AddsOp(user: string, tx: TxId, op: Op)
    ensures AddOp(Open(user, tx, []), op) == Open(user, tx, [op])
  {
    assert [] + [op] == [op];
    assert map[tx := TxRecord(user, [], Active)][tx := TxRecord(user, [op], Active)] == map[tx := TxRecord(user, [op], Active)];
  }

  lemma Adds()
    ensures TxNext(Opening(Open("a", 0, []), Start("b"), map[0 := 1]), AddTxOp(1, PIN_X))
         == Opening(Open("a", 0, [PIN_X]), Start("b"), map[0 := 1])
    ensures TxNext(Opening(Open("a", 0, [PIN_X]), Open("b", 1, []), OWNERS), AddTxOp(2, PIN_Y)) == Opened(START)
  {
    AddsOp("a", 0, PIN_X);
    AddsOp("b", 1, PIN_Y);
    assert NextReplicas(Opening(Open("a", 0, []), Start("b"), map[0 := 1]), AddTxOp(1, PIN_X))
        == map[1 := Open("a", 0, [PIN_X]), 2 := Start("b")];
    assert NextReplicas(Opening(Open("a", 0, [PIN_X]), Open("b", 1, []), OWNERS), AddTxOp(2, PIN_Y)) == Opened(START).reps;
  }

  lemma SystemStarts()
    ensures IsTxRun([Opening(Start("a"), Start("b"), map[])], [])
  {
    StartsRight();
  }

  lemma FirstOpen() returns (ss: seq<System>, ts: seq<TxStep>)
    ensures IsTxRun(ss, ts) && ss[|ts|] == Opening(Open("a", 0, [PIN_X]), Start("b"), map[0 := 1])
  {
    SystemStarts();
    Begins();
    Adds();
    ss, ts := [Opening(Start("a"), Start("b"), map[])], [];
    ss, ts := Extend(ss, ts, BeginTx(1, 0), Opening(Open("a", 0, []), Start("b"), map[0 := 1]));
    ss, ts := Extend(ss, ts, AddTxOp(1, PIN_X), Opening(Open("a", 0, [PIN_X]), Start("b"), map[0 := 1]));
  }

  lemma BothOpen() returns (ss: seq<System>, ts: seq<TxStep>)
    ensures IsTxRun(ss, ts) && ss[|ts|] == Opened(START)
  {
    ss, ts := FirstOpen();
    Begins();
    Adds();
    ss, ts := Extend(ss, ts, BeginTx(2, 1), Opening(Open("a", 0, [PIN_X]), Open("b", 1, []), OWNERS));
    ss, ts := Extend(ss, ts, AddTxOp(2, PIN_Y), Opened(START));
  }

  lemma FirstEnters()
    ensures Enabled(START, Request(1)) && Next(START, Request(1)) == STATE_1
    ensures Enabled(STATE_1, Receive(ASK_1)) && Next(STATE_1, Receive(ASK_1)) == STATE_2
    ensures Enabled(STATE_2, Receive(YES_1)) && Next(STATE_2, Receive(YES_1)) == STATE_3
  {
    StepIs(START, Request(1), STATE_1);
    StepIs(STATE_1, Receive(ASK_1), STATE_2);
    StepIs(STATE_2, Receive(YES_1), STATE_3);
  }

  lemma SecondEnters()
    ensures Enabled(STATE_4, Step.Collect(1)) && Next(STATE_4, Step.Collect(1)) == LEAVING
    ensures Enabled(LEAVING, Step.Clear(1)) && Next(LEAVING, Step.Clear(1)) == STATE_5
    ensures Enabled(STATE_5, Request(2)) && Next(STATE_5, Request(2)) == STATE_6
  {
    StepIs(STATE_4, Step.Collect(1), LEAVING);
    StepIs(LEAVING, Step.Clear(1), STATE_5);
    StepIs(STATE_5, Request(2), STATE_6);
  }

  /** The reply overtakes the commit that peer 1 sent before it. */
  lemma ReplyOvertakes()
    ensures Enabled(STATE_6, Receive(ASK_2)) && Next(STATE_6, Receive(ASK_2)) == STATE_7
    ensures Enabled(STATE_7, Receive(YES_2)) && Next(STATE_7, Receive(YES_2)) == STATE_8
  {
    StepIs(STATE_6, Receive(ASK_2), STATE_7);
    StepIs(STATE_7, Receive(YES_2), STATE_8);
  }

  lemma PinCommits(user: string, tx: TxId, text: string)
    ensures Accepts(Open(user, tx, [PinText("r", text)]), tx)
    ensures DoCommit(Open(user, tx, [PinText("r", text)]), tx) == Pinned(user, tx, text)
  {
    var r := Open(user, tx, [PinText("r", text)]);
    var a := ApplyOps(r, tx, user, [PinText("r", text)]);
    assert ApplyOps(r, tx, user, []) == r;
    assert [PinText("r", text)][..0] == [];
    assert a.pins == map["r" := Pin(text, user, tx)];
    assert SetStatus(a, tx, Committed).txs == map[tx := TxRecord(user, [PinText("r", text)], Committed)];
  }

  lemma FirstCommits()
    ensures TxEnabled(Opened(STATE_3), CommitTx(1)) && TxNext(Opened(STATE_3), CommitTx(1)) == OneDone(STATE_4)
  {
    PinCommits("a", 0, "x");
    var send := Send(1, {2}, TxCommit(0, "a", [PIN_X]));
    StepIs(STATE_3, send, STATE_4);
    assert Below(Opened(STATE_3), CommitTx(1)) == Some(send);
    assert NextReplicas(Opened(STATE_3), CommitTx(1)) == OneDone(STATE_4).reps;
    assert NextLog(Opened(STATE_3), CommitTx(1)) == LOG_1;
  }

  lemma SecondCommits()
    ensures TxEnabled(OneDone(STATE_8), CommitTx(2))
    ensures TxNext(OneDone(STATE_8), CommitTx(2)) == Sys(STATE_9, Pinned("a", 0, "x"), Pinned("b", 1, "y"), OWNERS, LOG_2)
  {
    PinCommits("b", 1, "y");
    var send := Send(2, {1}, TxCommit(1, "b", [PIN_Y]));
    StepIs(STATE_8, send, STATE_9);
    assert Below(OneDone(STATE_8), CommitTx(2)) == Some(send);
    assert NextReplicas(OneDone(STATE_8), CommitTx(2)) == map[1 := Pinned("a", 0, "x"), 2 := Pinned("b", 1, "y")];
    assert NextLog(OneDone(STATE_8), CommitTx(2)) == LOG_2;
  }

  lemma ExtendBelow(before: seq<System>, steps: seq<TxStep>, x: Step, w: World) returns (ss: seq<System>, ts: seq<TxStep>)
    requires IsTxRun(before, steps) && TxEnabled(before[|steps|], Protocol(x)) && Next(before[|steps|].w, x) == w
    ensures IsTxRun(ss, ts) && ss[|ts|] == before[|steps|].(w := w)
  {
    ProtocolStep(before[|steps|], x, w);
    ss, ts := Extend(before, steps, Protocol(x), before[|steps|].(w := w));
  }

  lemma FirstHalf() returns (ss: seq<System>, ts: seq<TxStep>)
    ensures IsTxRun(ss, ts) && ss[|ts|] == OneDone(STATE_4)
  {
    ss, ts := BothOpen();
    FirstEnters();
    ss, ts := ExtendBelow(ss, ts, Request(1), STATE_1);
    ss, ts := ExtendBelow(ss, ts, Receive(ASK_1), STATE_2);
    ss, ts := ExtendBelow(ss, ts, Receive(YES_1), STATE_3);
    FirstCommits();
    ss, ts := Extend(ss, ts, CommitTx(1), OneDone(STATE_4));
  }

  lemma SecondHalf(before: seq<System>, steps: seq<TxStep>) returns (ss: seq<System>, ts: seq<TxStep>)
    requires IsTxRun(before, steps) && before[|steps|] == OneDone(STATE_4)
    ensures IsTxRun(ss, ts) && ss[|ts|] == OneDone(STATE_8)
  {
    SecondEnters();
    ss, ts := ExtendBelow(before, steps, Step.Collect(1), LEAVING);
    ss, ts := ExtendBelow(ss, ts, Step.Clear(1), STATE_5);
    ss, ts := ExtendBelow(ss, ts, Request(2), STATE_6);
    ReplyOvertakes();
    ss, ts := ExtendBelow(ss, ts, Receive(ASK_2), STATE_7);
    ss, ts := ExtendBelow(ss, ts, Receive(YES_2), STATE_8);
  }

  /** A run in which both transactions commit and pin the room "r", each at its own replica. */
  lemma TwoPinsOneRoom() returns (ss: seq<System>, ts: seq<TxStep>)
    ensures IsTxRun(ss, ts)
    ensures var s := ss[|ts|];
            && s.reps.Keys == {1, 2} && "r" in s.reps[1].pins && "r" in s.reps[2].pins
            && HasStatus(s, 1, 0, Committed) && HasStatus(s, 2, 1, Committed)
            && s.reps[1].pins["r"].tx == 0 && s.reps[2].pins["r"].tx == 1
            && !LogApart(s.log)
  {
    ss, ts := FirstHalf();
    ss, ts := SecondHalf(ss, ts);
    SecondCommits();
    var s := Sys(STATE_9, Pinned("a", 0, "x"), Pinned("b", 1, "y"), OWNERS, LOG_2);
    ss, ts := Extend(ss, ts, CommitTx(2), s);
    assert OpsClash(s.log[0].ops[0], s.log[1].ops[0]);
  }
}
