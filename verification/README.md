# A model of the peer-to-peer node, with proofs

`peers.py` is a chat peer. Peers agree on one global critical section by Lamport-stamped requests and
votes, commit reservation and pin transactions inside it, and flood other messages with a hop budget and
a log of seen ids. This project models those layers as systems of any number of peers taking steps, and
proves what holds in every state of every run, of any length and with any interleaving.

| file | content |
|---|---|
| `Types.dfy` | addresses, priorities, operations, messages |
| `CriticalSection.dfy` | what one peer does for the critical section |
| `MutexSystem.dfy`, `MutexInvariant.dfy`, `MutexTheorems.dfy` | all peers and messages, the inductive invariant, exclusion, conservation, order of entries |
| `Deadlock.dfy`, `LateDeferral.dfy` | when the protocol gets stuck, and two runs that do |
| `Progress.dfy` | who can still enter |
| `Overtaking.dfy`, `TwiceOvertaken.dfy` | how often others can enter while a peer waits, and a run that reaches the bound |
| `Suspicion.dfy`, `DoubleEntry.dfy`, `DoubleEntryTheorems.dfy`, `SuspicionRuns.dfy` | failure detection that errs: what it can break, exactly when two peers can come to be in at once, and three runs in which they do |
| `TwoPeers.dfy` | the two peers of the runs that show what can go wrong |
| `Transactions.dfy` | one replica's tables |
| `Replication.dfy`, `ReplicationInvariant.dfy`, `CommitVisibility.dfy`, `PinInvariant.dfy`, `Outcomes.dfy`, `ReplicationTheorems.dfy` | replicated transactions on top of the critical section: applied commits, delivery disciplines, pins, recorded outcomes, theorems |
| `UnorderedCommit.dfy` | a run without delivery discipline in which two transactions pin one room |
| `Flooding.dfy`, `FloodReach.dfy`, `FloodBudget.dfy` | flooding: termination, reach, hop bound, tightness |
| `ChatHistory.dfy` | the chat log and its causal order |
| `Peer.dfy`, `PeerSteps.dfy` | the peer as a class changed in place, and how its methods are made of the steps of the systems |

## How to read the model

* A state of the critical-section system is every peer's variables, the set of message copies in flight,
  and the set of crashed peers. Messages are delivered in any order. A send loop is one step: a copy not
  yet written to its socket counts as in flight. A crash may lose any of the dead peer's copies, which
  covers a crash in the middle of a send loop. The reply loop of a release is one step per reply.
* The request handler is split where its lock ends: the locked part, the read of the local stamp, and the
  comparison with its reply or deferral are separate steps that anything may come between. A release is
  split too: `peers.py:903-904` copies the deferred peers and then clears them under the lock, but the
  `add` of `peers.py:937` does not take that lock, so the copy (`Collect`) and the clearing (`Clear`) are
  two steps, and between them the peer may do whatever needs no lock. A peer with nobody to ask enters in a
  step of its own (`Enter`), because `peers.py:877-881` looks at the awaited votes after it has left the lock.
* Every peer's host is the constant of `peers.py:4`, so a port is an address and `(stamp, port)` stands
  for `(stamp, (host, port))`.
* Membership is fixed and complete for the critical section and transactions. A peer is dropped when its
  crash is noticed, and comes back into the neighbor set when an old message of it arrives, as in the code.
* In the runs of `IsRun` only crashed peers are given up on. The timeouts of `peers.py:82-89` do not
  guarantee that. In the runs of `IsFallibleRun` any peer may give up on any live one at any time, and the
  message whose sending failed, or any others on their way between the two, may be lost with it.
* Transactions run without crashes, under one of two delivery disciplines: no reply overtakes a commit that
  its sender sent to the same peer before it, or every commit addressed to a committer arrives before it
  validates. The `sleep(1.0)` of `peers.py:995` stands for the second. `DisciplineGivesBarrier` shows that
  the first implies the second; the theorems that hold in any delivery order say so. The first orders
  nothing else: a pin sync with the new pins may arrive before the commit that sets them, as it does when a
  ping is answered between the application of a commit and its broadcast (`peers.py:1187-1191`).
* `log`, `owner` and `aborted` of the replicated system record history. No step's guard reads them except
  to pick a fresh transaction id, which is what a UUID gives.
* Three promises turned out false of the code as it is; each has a run that breaks it and the condition
  under which it breaks.
  * A peer can wait for good (`GetsStuck`, `GetsLost`), and its permission can vanish. It happens if and
    only if a lost comparison is acted on when the stamp it lost to is no longer the local one
    (`LateAct`, `StuckIffLate`), and the permission vanishes if and only if that falls between the two
    halves of a release (`PermissionConserved`). Running the handler's tail under its lock excludes both.
  * A mistaken suspicion can let two peers in: because a reply is on its way (`ReplyOnItsWay`), because the
    next request skips the one given up on (`NextRequestSkipsHolder`), or because a stale vote counts for a
    later request (`StaleVoteAdmits`). One of the two has given up on the other (`TwoHoldersNeedMistake`).
    As long as the other has not given up on the first, `FalseSuspicion` says when, in every state of every
    such run, whether the vote in question is awaited or not.
  * Without a delivery discipline commits can conflict (`TwoPinsOneRoom`); `ApartIffEachWasClear` says when.

## Model

| member | source | states |
|---|---|---|
| MutexTheorems.MutualExclusion | peers.py:858-961 | in every state of every run, with crashes and with the request handler split, a live peer in the critical section comes strictly before every other live peer that requests or holds it, so at most one live peer is in |
| MutexTheorems.PermissionConserved | peers.py:870-937 | of two live peers, j's permission for i is in exactly one place while i requests or holds (request or reply in flight, handler thread, deferral or unsent reply, or granted) and nowhere while i is idle, so no reply is counted for a later request; it is nowhere while i requests if and only if some deferral of i was added between the copy and the clearing of a release of j and cleared away |
| MutexTheorems.EntriesIncrease | peers.py:870-961 | any two successive entries of a run, by whichever peers, carry strictly increasing (stamp, address) |
| Suspicion.TwoHoldersNeedMistake | peers.py:89-112 | in a run in which any peers gave up on any live peers any number of times, two live peers are in the critical section at once only if one of these two gave up on the other |
| DoubleEntryTheorems.EntersIffDanger | peers.py:79-112 | after any mistakes, while q requests or holds and keeps its request, a live d that has not given up on q can come to be in, with q alive, if and only if q's permission is granted to d, in flight, owed, or in a comparison that d wins, or q still requests and d's request in flight, or the next one of an idle d, is ahead of q's |
| DoubleEntryTheorems.FalseSuspicion | peers.py:79-112 | in the same situation q and d can come to be in at once while q keeps its request if and only if d can come to be in and q awaits no vote of d, or d will give it one, due or stale, before its next request; or d can make a further request that is still ahead of q's and a stale vote comes with it. "Can" means by steps that may let other peers crash and be noticed, but without a further mistake |
| DoubleEntryTheorems.ExclusionBreaksIff | peers.py:79-112 | if the only mistakes were of q about d, the same condition says, in every later state in which q requests or holds, when any two peers can come to be in at once by such steps |
| DoubleEntryTheorems.UnawaitedSuspicion | peers.py:92-97 | giving up on a live peer whose vote is not awaited, with or without losing messages to it, keeps everything the invariant says but that the peer is known, and is no danger while the request lasts |
| SuspicionRuns.ReplyOnItsWay | peers.py:79-112 | a run in which a peer answers a request ahead of its own, gives up on the requester and enters alone, and the reply then lets the other in too |
| SuspicionRuns.NextRequestSkipsHolder | peers.py:870-881 | a run in which an idle peer gives up on the holder, so that its next request asks nobody and both are in |
| SuspicionRuns.StaleVoteAdmits | peers.py:950-961 | a run in which a peer gives up on another, enters, leaves and lets the other in, and then counts the late answer to its first request for its second one, so that both are in |
| MutexTheorems.ProbeIsFailedSend | peers.py:983-993 | in every reachable state the probe of the waiting loop, which does not check the state, does what the failure branch of a send does |
| MutexInvariant.RunInv | peers.py:841-961 | every state of every run satisfies the invariant: each permission of two live peers has one place, which is Lost only after a deferral was cleared away; a voter past the request has passed its stamp, one that gave or lost its permission is behind in priority, and a comparison in progress uses the voter's present stamp whenever that matters |
| Deadlock.StuckIffLate | peers.py:892-961 | when nothing is under way and nobody is in, somebody waits if and only if at some earlier step one of two peers still live acted on a comparison that the other's request had lost to a stamp that was no longer the local one |
| Deadlock.StrandedIffLate | peers.py:892-937 | in every state of every run, of two live peers one keeps the other's request deferred, or has lost it, without being ahead of it if and only if it took such a step |
| Deadlock.StrandedForGood | peers.py:892-961 | such a request stays unanswered, and its sender waits, in every later state in which both peers live, whatever they and others do |
| LateDeferral.GetsStuck | peers.py:892-937 | a run of two peers in which a release comes between the stamp read and the deferral; nothing is under way at its end, and the deferred peer waits in every continuation for as long as both live |
| LateDeferral.GetsLost | peers.py:901-904 | the same with the deferral between the copy and the clearing of the release: no peer defers anybody at its end |
| Progress.CanEnterIffClearWay | peers.py:858-961 | in every state of every run, a waiting peer can still enter without further crashes if and only if no late deferral, made or bound to be made by a comparison already loaded, concerns its own request or one ahead of it |
| Overtaking.AtMostTwice | peers.py:858-961 | while a peer waits, each other live peer enters at most twice |
| TwiceOvertaken.EntersTwice | peers.py:858-961 | a run in which a peer enters twice while another waits |
| PeerSteps.HandlerIsThreeSteps | peers.py:911-937 | the uninterrupted request handler is its three steps in a row and leaves no thread behind |
| PeerSteps.MessageIsSteps | peers.py:194-241 | handling a message is: receive it, load and act if it is a request to be compared, and let the id log lose an id if it does; the reply of the method is the message these steps send |
| PeerSteps.ReleaseIsSteps | peers.py:892-907 | the release is its two halves and one step per reply, all enabled; together they do what the method does and send one reply to each deferred peer, with successive stamps, and nothing else |
| PeerSteps.RequestIsSteps | peers.py:870-887 | the request command is the request step, followed by the entry of a peer that has nobody to ask; the copies it writes are the messages these steps send |
| PeerSteps.CommitIsStep | peers.py:1169-1193 | what the commit body does to the tables and announces is what the commit step does and sends |
| PeerSteps.AbortIsStep | peers.py:1203-1225 | the same for the abort command |
| PeerSteps.ChatIsHeard | peers.py:434-449 | the log that the chat handler leaves is that of a step in which the peer hears the chat, with exactly that chat more or nothing more |
| PeerSteps.FloodIsHandled | peers.py:180-223 | what the flood handler does to ids and neighbors, and the copies it writes, are those of a step that handles the copy |
| Transactions.ApplyThenRollBack | peers.py:1100-1115 | rolling back a new transaction restores every station's list in order; the pins come back if and only if it pinned nothing, because the abort handler leaves pins alone |
| Transactions.CommitThenAbort | peers.py:1228-1281 | after a commit message for a new transaction, an abort message for it leaves every station's list as it was before both, in order |
| Transactions.KnownUserStays | peers.py:1228-1281 | a message about a known transaction leaves the user it is recorded under, an abort its operations too, and what a commit adds it adds under that user |
| Transactions.ApplyOpsEffect | peers.py:1100-1115 | applying adds one entry per booking and no other, and overwrites exactly the pinned rooms with the last text for each |
| Transactions.ApplyOpsAppends | peers.py:1106-1109 | each station's list keeps its entries and grows at its end, by the booked entries in the order of the operations |
| Transactions.OwnEntriesNeverClash | peers.py:1065-1087 | validation never counts against a transaction what it has applied itself |
| Transactions.BeginAfterAbort | peers.py:1203-1225 | aborting an undecided transaction closes it, so that the next begin opens a new one |
| ReplicationTheorems.CommandIsAllOrNothing | peers.py:1002-1200 | whatever messages arrive in between: a commit applies exactly the operations that its user added since opening the transaction, in order, and records a commit if they pass validation against the tables at the commit step, and otherwise leaves the tables alone and records an abort; other records are untouched |
| ReplicationTheorems.NextCommandOpens | peers.py:1002-1017 | after a transaction was closed, or aborted by its user, the next begin opens an empty one |
| ReplicationTheorems.CommitsIffClear | peers.py:1065-1098 | under either discipline a transaction commits if and only if it clashes with no transaction committed before by any peer: validation refuses nothing else |
| Transactions.OverlapIsCommonInstant | peers.py:1060-1062 | two nonempty slots overlap if and only if some instant lies in both |
| Transactions.MidwayPinsAreFinal | peers.py:283-291 | who reads the pins while a transaction is being applied never sees one that the transaction will overwrite if and only if it gives no room two different texts |
| ReplicationTheorems.AppliedIffArrived | peers.py:1178-1243 | in any delivery order a peer counts a transaction as committed if and only if it was committed and no commit message for it is on its way there, and holds each of its bookings exactly as often as it was asked for and nothing else |
| ReplicationTheorems.RecordsAreFull | peers.py:1228-1277 | in any delivery order, whoever counts a transaction as committed records it with all of its operations, and who learns of an abort records no operations, both under the user at the peer that began it |
| ReplicationTheorems.AbortReachesAll | peers.py:1142-1156 | right after a failed commit or a user's abort, the abort message is on its way to every other peer, under that user's name |
| ReplicationTheorems.AbortedIffTold | peers.py:1266-1277 | in any delivery order, the peer that began an aborted transaction knows of the abort, and any other one does if and only if no abort message for it is on its way there |
| ReplicationTheorems.OutcomeAgreement | peers.py:1171-1281 | in any delivery order no transaction is committed at one peer and aborted at any |
| ReplicationTheorems.AbortRemovesNothing | peers.py:1266-1281 | handling an abort message changes no station's list at any peer |
| ReplicationTheorems.ReservationsConverge | peers.py:1100-1111 | in any delivery order, once no commit is on its way, all replicas hold the same multiset of reservations per station |
| ReplicationTheorems.ClearOfAllIffOfIncoming | peers.py:1065-1087 | in any delivery order a validated commit clashes with no committed transaction if and only if it clashes with none still on its way to the committer |
| ReplicationTheorems.ApartIffEachWasClear | peers.py:1065-1087 | in any delivery order the transactions committed so far are free of clashes if and only if each of them was clear, when it was committed, of those on their way to its committer |
| ReplicationTheorems.CommitOrder | peers.py:1159-1196 | every earlier commit was made in the same critical section or in one of strictly smaller priority |
| ReplicationTheorems.SyncCatchesUp | peers.py:321-337 | handling a pin sync leaves the receiver with every pin the sync carries; the duplicate check never drops it |
| ReplicationTheorems.SyncIsSent | peers.py:283-298 | sending a sync puts one message on its way to the peer it is for |
| ReplicationTheorems.SyncBringsAll | peers.py:283-337 | once a sync is handled its receiver holds every pin its sender held when it sent it, whatever happened to both in between |
| CommitVisibility.HolderHasReceivedAll | peers.py:963-999 | if no reply overtakes a commit, no commit is on its way to a peer in the critical section |
| CommitVisibility.DisciplineGivesBarrier | peers.py:995-999 | that replies overtake no commit gives at every commit what the wait before it is for |
| ReplicationTheorems.CommitSeesAll | peers.py:1169-1196 | at a commit the committer's tables hold every transaction committed before by any peer: the record with its operations and user, each booking exactly as often as it was asked for, and the pins |
| ReplicationTheorems.ConflictFree | peers.py:1065-1111 | at one replica or between two, reservations of one station by different transactions never overlap, although remote commits are applied unvalidated |
| ReplicationTheorems.OnePinPerRoom | peers.py:1082-1115 | no two transactions ever commit a pin to the same room |
| ReplicationTheorems.PinsConverge | peers.py:1113-1115 | once no commit is on its way, all replicas hold the same pins |
| ReplicationTheorems.PinWriteOnce | peers.py:321-337 | a pin once set at a replica keeps its text, user and transaction for the rest of the run, whatever commits and stale pin syncs arrive |
| UnorderedCommit.TwoPinsOneRoom | peers.py:1159-1196 | with neither discipline, a run of two peers commits two pins to one room |
| Flooding.HandlingsAreBounded | peers.py:180-223 | a run handles at most as many copies as the load it starts with, from the budget alone, even when the log forgets ids |
| Flooding.HandlingShrinksLoad | peers.py:180-223 | each handling strictly lowers the sum of weights of the copies in flight, seen or not |
| FloodReach.FloodReaches | peers.py:180-223 | with a budget of at least N - 1, once nothing is in flight every other peer reachable from the origin has handled the message exactly once, in any delivery order; nobody handles it twice and the origin never |
| FloodReach.HopBound | peers.py:180-213 | a copy carrying ttl t has come along a walk of exactly T - t edges, no copy goes to the origin, no peer is its own neighbor, and who handled the message is at most T edges away |
| FloodReach.HandlersKnowOrigin | peers.py:209-212 | whoever has handled the message knows its origin |
| FloodBudget.SmallerBudgetFails | peers.py:180-192 | on a row of N peers any budget below N - 1 leaves out, in every run, the peer one place further away |
| FloodBudget.ShortestPathCanLose | peers.py:215-223 | a run in which a peer two hops away is missed by a budget of two, because a longer path delivers first |
| FloodBudget.ForgottenIdIsHandledAgain | peers.py:215-223 | a run in which a peer whose log forgets the id between two copies handles the message twice |
| ChatHistory.HistoryIsStableSort | peers.py:445-449 | the chat log is at all times the stable sort by stamp of the chats that the peer handled without a room or in the room it was in at that moment, in order of arrival |
| ChatHistory.EachChatIsLogged | peers.py:434-449 | each chat stands in the log exactly as often as the peer handled it so |
| ChatHistory.SomethingIsSaid | peers.py:841-848 | saying something puts out one chat, under the peer's name, in its room, and stamped with its new clock |
| ChatHistory.StableSortIsUnique | peers.py:445-449 | sortedness by stamp and the order within each stamp determine the log |
| ChatHistory.ResortingIsSorting | peers.py:445-449 | appending to the sorted log and sorting again gives the stable sort of all arrivals |
| ChatHistory.HistoryIsCausal | peers.py:841-856 | if b depends on a through any chain of "said by a peer that had said or handled", a stands before b in every log that holds both |
| PeerNode.Peer.UpdatingLamportTime | peers.py:850-856 | the clock becomes the larger of clock and stamp plus one, and so exceeds both |
| PeerNode.Peer.Forward | peers.py:180-192 | the send loop writes one copy with one hop less to each neighbor but the excluded one, and none when the budget is spent |
| PeerNode.Peer.SendFailed | peers.py:89-112 | the failure branch forgets the peer and its awaited vote, and enters when it was the last |
| PeerNode.Peer.RequestCs | peers.py:858-890 | an idle peer takes a new stamp and asks each neighbor once, or enters at once if it has none; otherwise nothing changes |
| PeerNode.Peer.ReleaseCs | peers.py:892-909 | a holder becomes idle and answers each deferred peer once with successive stamps; otherwise nothing changes |
| PeerNode.Peer.HandleCsRequest | peers.py:911-937 | the handler's three branches, and when it answers at once |
| PeerNode.Peer.HandleCsReply | peers.py:950-961 | a reply counts only while requesting, and the last one enters |
| PeerNode.Peer.ValidateTransaction | peers.py:1065-1098 | the loop returns true exactly when no operation clashes with the tables |
| PeerNode.Peer.ApplyTransaction | peers.py:1100-1115 | the loop leaves the tables that applying the operations in order gives |
| PeerNode.Peer.CommitInside | peers.py:1169-1193 | the new tables and the message to broadcast, for the inactive, the conflicting and the accepted case |
| PeerNode.Peer.AbortTransaction | peers.py:1203-1225 | an active transaction is marked aborted, announced and closed; otherwise nothing changes |
| PeerNode.Peer.HandleTxCommit | peers.py:1228-1243 | the record is created or updated and the operations are applied under the recorded user |
| PeerNode.Peer.HandleTxAbort | peers.py:1266-1281 | the record is marked aborted and each station's list is filtered in place |
| PeerNode.Peer.HandlePinSync | peers.py:321-337 | the merged pins, those of the message winning |
| PeerNode.Peer.HandleMsg | peers.py:194-241 | clock, neighbor and duplicate handling and dispatch for critical-section and transaction messages; the id log loses an id only when it is over its limit |
| PeerNode.Peer.HandleFlooded | peers.py:194-223 | a flooded message is dropped if its id is known, else passed on to all but its origin and logged if it is a chat shown here; the id log loses an id only when it is over its limit |
| PeerNode.Peer.HandleChat | peers.py:434-449 | a chat of another room changes nothing, any other is appended and the log sorted again |
| PeerNode.Peer.Remember | peers.py:215-223 | the duplicate check: whether the id was known, and the log after it: every id is kept while the log is within its limit, and exactly one is lost when the log exceeds it |

## Left out

- Sockets, JSON, threads and the listener: a send adds copies to the network, a receive is a step.
- Console output, command parsing and the help text.
- Handshake, room queries, member lists, topic and focus messages: they only move the clock and sets that nothing here depends on.
- Joining during a request: `pending` and the later send loop read the neighbor set separately, so membership is fixed here.
- Crashes in the transaction layer: a peer that dies in the middle of a commit broadcast leaves replicas different.
- Lock nesting: a reply that fails under the critical-section lock would take the same lock again (`peers.py:97`, `peers.py:919`); the intended effect, dropping the dead peer, is modelled.
- Failed sends while flooding: a failed send drops a neighbor; the flooding model lets neighbor sets grow but not shrink. Pings are passed on after a room check that the flooding model does not have.
- The chat model lets a peer handle any chat at any time and any number of times, which covers every relay path and delivery order.
- Liveness: that a waiting peer can still enter is proved, with its exact condition; that it does enter is not, because delivery is not assumed to happen.
- FalseSuspicion: does not cover two peers that have given up on each other; `TwoHoldersNeedMistake` does.
- PinWriteOnce: takes the application of a transaction as one step; `peers.py:283-291` reads the pins without the lock that holds during it. `MidwayPinsAreFinal` says for which transactions that makes no difference. The program's own are all of that kind: its one pin command commits right after it has added its one pin (`peers.py:631-637`).
- PinsConverge: the same.
- Overlaps inside one transaction: validation does not compare a transaction with itself, and neither does `ConflictFree`.
- Reservation times are integers, and pin-sync entries are complete: the source skips entries with a missing field, which no peer sends.
- with_global_cs: its request, wait, body and release are steps of the system, not one method; a commit step is enabled inside the critical section only.
- Python's list sort is taken to be stable, as documented for the language; its algorithm is not modelled.
