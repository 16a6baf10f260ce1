# thoth-ipc: a model of its shared-memory protocols

thoth-ipc moves messages between processes through rings in shared memory. Its core is a
set of small lock-free protocols: several processes run a few atomic loads, stores and
compare-and-swaps each against a fixed layout. This project models those protocols in
Dafny and proves what they are for, over every interleaving of any number of threads.

`dafny verify dfyconfig.toml` checks everything.

## How the protocols are modelled

Each protocol is a system of steps over a `State`. One load, store, swap or CAS of the
code is one step; a weak CAS may fail for no reason; what a thread has loaded sits in its
own program counter value. A `Run` is any sequence of steps from the initial state, so a
lemma over runs speaks of every interleaving. Cursors, flags and generations are unbounded
numbers, and a step compares them the way the code does, truncated to 8, 24 or 32 bits.
History variables (the claim log, the position a slot holds, who owns what) are written
but never branched on. Sequential code keeps its own form: the id pool and the
reassembling receiver are classes, sending and the bit-peeling loops are methods with
loops, and each is proved against a function or a property.

Three kinds of lemma go with each protocol. An invariant says what every step keeps, and what
that means over whole runs. A `…Returns` or `…Answers` lemma says where a call may return and
what its answer means, so a lost race can never pass for an answer. A `Solo…` lemma says that
a call that runs alone gets done, from whatever point it was stopped at.

| file | what it models |
|---|---|
| `RingWords`, `BitWord`, `RcWord`, `FlagWord`, `ReceiverMarks` | sizes, machine words as bits, the `rc_` word, the commit flag, the mask loops |
| `ChannelRing`, `ChannelOrder`, `ChannelCalls`, `ChannelProgress` | the multi-writer broadcast ring, its total order, what a call on it answers, and when it holds nobody up |
| `ChannelMembers`, `MembershipGap`, `MembershipRuns`, `MembersOrder`, `MembersProgress` | the channel with receivers that come and go: exactly when a position is claimed twice, runs in which it is, and the order of runs in which membership changes quietly |
| `UnicastRing`, `UnicastOrder`, `UnicastCalls`, `UnicastProgress` | the multi-producer multi-consumer unicast ring, its order, what a call on it answers, and when its verdicts are exact |
| `RouteRing`, `RouteOrder`, `RouteCalls`, `RouteProgress` | the single-writer broadcast ring with receivers joining and leaving |
| `HandoverSlot`, `HandoverProof`, `HandoverProgress` | a commit that crosses a connect on one channel slot |
| `Framing`, `MsgCodec`, `EndToEnd`, `LateDelivery` | fragmentation and reassembly, the bytes of an element, and messages from `send` to `recv` over the channel and the route, from any start |
| `Wakeup`, `WakeupCalls` | the waiter over the sequence-counter condition variable, and what `wait_if` answers |
| `Processes`, `SoleSender`, `PidReturns` | processes and the liveness check, the sole-sender claim, and exactly when it fails |
| `Reaper`, `ReaperSafety`, `ReaperProgress`, `DisconnectGap` | reaping dead receivers, exactly when it takes a live one's bit, and two runs in which it does |
| `ChunkPool`, `ChunkLife` | the chunk id pool, chunk addresses, the life of a chunk |
| `ConnHead` | header initialisation and the connection mask |
| `RwLock`, `SyncStamp` | the reader-writer lock, the sync ABI stamp |
| `BoundedBuffer`, `BufferOrder`, `BufferProgress` | the bounded buffer over a mutex and two semaphores |

## Hypotheses

They are guards of steps, so that every lemma over runs names them by naming `Run`.

- Channel: the epoch is constant (the Rust channel never changes it); positions stay below
  2^31; fewer than 2^24 updates of one `rc_` fall between a load and its CAS.
  `RcWord.NeverRepeats` shows what the last one is worth: the generation field repeats at
  2^24 and not before. In `ChannelRing` the receivers are connected before the first push
  and stay; in `ChannelMembers` they come and go as they like.
- Route: no forced push, so the epoch is constant; a receiver that claims its bit while a
  push is between its mask load and its publish loads the cursor it walks back from after
  that publish; nothing pushed between a receiver's cursor read and its claim carries the
  claimed bit; fewer than 256 pushes during one connect and fewer than 2^31 during one
  connection.
- Handover: each new owner's `since` is past the position and at most one lap past it; the
  other receivers stay connected; the writers of later laps loaded their mask after every
  handed-over bit had its new owner; positions stay below 2^31.
- Unicast, wake-up: one operation does not outlive 2^32 pushes or counter bumps.
- Sole sender: the liveness check never calls a live recorded holder dead, and no non-zero
  pid leaves the record and comes back between a first read and the CAS. `PidReturns` does
  without the second.
- Reaper: only that the liveness check never calls a live recorded holder dead. Crashes can
  happen at any step and pids may be reused, here and for the sole sender.
- Reader-writer lock: fewer than 2^31 readers at a time.

## Where the code falls short of a promise

- Commit flag. It is freed in 64 bits and compared with a cursor that wraps at 32. A freed
  slot is claimable by exactly its next claimant if and only if its position is below
  2^32 - 256, with one more position, 2^32 - 1, when the last reader frees it
  (`FlagWord.ReaderFreeExact`, `FlagWord.DropFreeExact`). At 2^32 - 256 it is claimable by
  nobody (`FlagWord.StuckAtWrap`). The comment in `release_mark` says it frees the slot as
  `recv` does; for 2^32 - 1 the two flags differ (`FlagWord.FreeFlagsAgree`).
- Unicast verdicts. `push` tests for a full ring with a commit index it loaded earlier, and
  `pop` for an empty one with a read cursor it loaded earlier, both modulo 256. So `push` can
  report full on an empty ring that never held more than one element
  (`UnicastProgress.FullOnEmpty`), and `pop` can report empty although an element was
  published in the ring during the whole call (`UnicastProgress.EmptyOnFilled`).
  `FullIsExact`, `EmptyBranchIsExact` and `EmptyVerdictIsExact` say exactly when.
- Sole sender. The claiming CAS compares the pid alone. There is a run, with no crash and no
  pid reuse, that ends with two live owners: a claimant pairs the first holder's pid with the
  second holder's token (`PidReturns.ReturnBreaksSoleOwner`). Every state of a run has at
  most one live owner if and only if no claim of the run finds a record written since it
  read it whose last writer is alive (`PidReturns.SoleOwnerExactly`). The guard of the
  guarded model shuts out exactly a non-zero pid that left and came back
  (`PidReturns.GuardIsReturn`).
- Reaper. A disconnect clears its bit before its owner record. There is a run, with no crash
  and no pid reuse, in which the next owner of the bit stores its token under the leaver's
  pid, and a reaper that reads the two together takes the live newcomer's bit
  (`DisconnectGap.LiveReceiverReaped`). And the reaping CAS compares the pid alone: in
  another such run every disconnect is complete before the bit is claimed again, and a
  reaper still takes the bit of a live, fully connected receiver, because its pid left the
  record and came back (`DisconnectGap.ReturnedReceiverReaped`). Live receivers keep their
  bits throughout a run if and only if no clear takes a bit that a live receiver has claimed
  anew since the record its reaper took (`ReaperSafety.SafeExactly`); that holds in every run
  in which no claim of a bit overtakes a disconnect or a clear of it and no record is written
  between a reaper's read and its CAS (`ReaperSafety.CleanIsSafe`).
- Channel membership. A slot marked only for receivers that are not in the mask a writer
  loaded skips the flag test, so two writers can claim one position: while the first claim is
  pending (`MembershipRuns.ClaimedTwice`), or after it is committed, with an index from
  before (`MembershipRuns.ClaimedLate`). Whoever connects and leaves and whenever, every
  position of a run is claimed once, and in order, if and only if no claim takes a slot that
  already holds its position or a later one (`MembershipGap.OnceExactly`);
  `MembershipGap.OverclaimGuard` names the guard through which the first such claim gets in.
  If receivers connect and leave only while no push is between its load of the mask and its
  store of `ct_`, and leave with nothing unread, there is none, and each receiver pops the
  log without gap from where it joined (`MembersOrder.CalmIsOnce`,
  `MembersOrder.CalmTotalOrder`).
- Messages under way. A receiver that starts in the middle of a message delivers the rest of
  it as a message of its own; it delivers a message whole if and only if it starts before
  its first fragment (`LateDelivery.LateRoundTrip`, `LateDelivery.WholeExactly`).

## Model

| member | source | states |
|---|---|---|
| `RingWords.SameSlot` | rust/thoth-ipc/src/circ.rs:18-22 | two positions less than a lap apart that share a slot are the same position |
| `RingWords.SameGeneration` | rust/thoth-ipc/src/channel.rs:289-292 | fewer than 2^24 updates apart, equal 24-bit generations are equal counts |
| `RingWords.AtOrAfterIsOrder` | rust/thoth-ipc/src/liveness.rs:296 | for cursors less than 2^31 apart the wrapped i32 comparison is the true order, truncated or not |
| `ChannelOrder.ClaimIsNext` | rust/thoth-ipc/src/channel.rs:1210-1252 | a winning claim CAS takes position `ct_`, which is the length of the claim log, and every receiver has already read the element it overwrites |
| `ChannelOrder.OwnersDiffer` | rust/thoth-ipc/src/channel.rs:1257-1261 | two writers between claim and commit never write the same slot |
| `ChannelOrder.CommitDropsNothing` | rust/thoth-ipc/src/channel.rs:935-947 | with receivers connected from the start, a commit finds no stale mark |
| `ChannelOrder.OwnMarkStays` | rust/thoth-ipc/src/channel.rs:1315-1325 | a reader clearing its mark always finds its own bit on the slot, so it never takes the "no marks" branch |
| `ChannelOrder.ClearFacts` | rust/thoth-ipc/src/channel.rs:1315-1335 | a reader's winning CAS removes its own mark from the slot of its own position and nothing else |
| `ChannelOrder.StepKeeps` | rust/thoth-ipc/src/channel.rs:1192-1342 | every step of every writer and reader keeps the ring invariant |
| `ChannelOrder.RunInv` | rust/thoth-ipc/src/channel.rs:1192-1342 | the invariant holds in every state of every run |
| `ChannelOrder.LogGrows` | rust/thoth-ipc/src/channel.rs:1192-1342 | the claim log of a run only grows, and the receivers stay the same |
| `ChannelOrder.TotalOrder` | rust/thoth-ipc/src/channel.rs:1192-1342 | at every point of every run each receiver has popped a prefix of one common claim-order log, byte for byte |
| `ChannelOrder.ClaimInRun` | rust/thoth-ipc/src/channel.rs:1236-1252 | a claim in a run takes the position the log has reached, records its writer, and overwrites nothing unread |
| `ChannelOrder.ClaimsAreOrdered` | rust/thoth-ipc/src/channel.rs:1236-1252 | a later claim takes a larger position, so no position is claimed twice, and the final log names each claimant |
| `ChannelOrder.CommitIndex` | rust/thoth-ipc/src/channel.rs:1257-1258 | `ct_` moves by one, only forward, and is at most one behind the claims |
| `ChannelOrder.NothingIsLost` | rust/thoth-ipc/src/channel.rs:1275-1290 | as long as a receiver has not read a claimed position, its slot holds that position, and once committed its flag is up and its bytes are the claimant's |
| `ChannelProgress.PendingClaim` | rust/thoth-ipc/src/channel.rs:1236-1258 | in every state of every run, `ct_` accounts for every claim unless a claimant is between its CAS and its store of `ct_` |
| `ChannelProgress.FreeSlot` | rust/thoth-ipc/src/channel.rs:1210-1235 | the slot `ct_` leads to holds the element one lap before, and is unmarked, with a flag that lets a writer in, exactly when every receiver has read it |
| `ChannelProgress.HeldUpExactly` | rust/thoth-ipc/src/channel.rs:1213-1235 | with no claim pending, a writer that looks at the current slot is held up if and only if some receiver has not read the element it would overwrite |
| `ChannelProgress.PollIsExact` | rust/thoth-ipc/src/channel.rs:1275-1287 | a polling receiver sees its flag up if and only if its position is claimed and committed |
| `ChannelProgress.SoloPush` | rust/thoth-ipc/src/channel.rs:1192-1263 | any run whose last state has no claim pending and the element one lap before read by all extends, by steps of one idle writer alone, to the state with its message pushed and nothing else changed |
| `ChannelProgress.SoloPop` | rust/thoth-ipc/src/channel.rs:1269-1342 | any run in whose last state a polling receiver's position is committed, or a receiver is anywhere past that, extends, by steps of that receiver alone, to the state with that element popped and released and nothing else changed |
| `ChannelProgress.SoloResume` | rust/thoth-ipc/src/channel.rs:1192-1263 | so does a push that was stopped anywhere before its claim, whatever it had loaded: alone, it gets its message pushed |
| `ChannelProgress.SoloFinish` | rust/thoth-ipc/src/channel.rs:1257-1263 | and one stopped anywhere after its claim: alone, it gets its element written and committed and returns |
| `ChannelCalls.PushReturns` | rust/thoth-ipc/src/channel.rs:1201-1256 | in every step of every run a push in its claim loop keeps its message, claims the next position for it, or gives up while it is held up; losing the claiming CAS never makes it return |
| `ChannelCalls.PushCommits` | rust/thoth-ipc/src/channel.rs:1257-1261 | past its claim it returns only with its element written and committed |
| `ChannelCalls.PushAnswers` | rust/thoth-ipc/src/channel.rs:1192-1263 | over a whole call, whatever else runs: either the message is in the log under its writer, at a position claimed during the call and committed, or nothing was claimed and the call gave up while it was held up |
| `ChannelCalls.HeldUpMeansTaken` | rust/thoth-ipc/src/channel.rs:1213-1235 | a push is held up only if, at its load of `rc_` or its flag test, its index had been claimed or some receiver had not read the element it would have overwritten |
| `ChannelCalls.ReadReturns` | rust/thoth-ipc/src/channel.rs:1313-1335 | in every step of every run a receiver that has seen an element stays at it until it has popped it with the bytes of its claim |
| `MembershipGap.ClaimIsNext` | rust/thoth-ipc/src/channel.rs:1210-1252 | with receivers coming and going, a claim of a slot that holds an earlier position takes `ct_`, which is the length of the log, and keeps the order of the claims so far |
| `MembershipGap.NextKeeps` | rust/thoth-ipc/src/channel.rs:1192-1342 | every step of pushing, committing, reading, connecting and leaving, except a claim of a slot that holds its position or a later one, keeps that order |
| `MembershipGap.WasClaimed` | rust/thoth-ipc/src/channel.rs:1236-1258 | up to the first such claim every position below the length of the log has been claimed |
| `MembershipGap.OnceExactly` | rust/thoth-ipc/src/channel.rs:1192-1263 | in every run with receivers that come and go, every position is claimed at most once if and only if no claim takes a slot that holds its position or a later one, and if and only if every claim takes the position the log has reached |
| `MembershipGap.OverclaimGuard` | rust/thoth-ipc/src/channel.rs:1210-1235 | the first claimant of an already claimed position holds a stale index or one whose claim is pending, and was let in with marks that are all outside the mask it loaded, or with none and a freed flag |
| `MembershipRuns.ClaimedTwice` | rust/thoth-ipc/src/channel.rs:1213-1235 | there is a run in which a second writer claims a position while the first claim of it is pending |
| `MembershipRuns.ClaimedLate` | rust/thoth-ipc/src/channel.rs:1213-1235 | there is a run with no claim pending in which a writer with a stale index claims a position over its committed element |
| `MembersOrder.JoinKeeps` | rust/thoth-ipc/src/channel.rs:651-672 | a receiver that claims a bit while no push is in its window keeps the ring invariant |
| `MembersOrder.LeaveKeeps` | rust/thoth-ipc/src/channel.rs:1386-1389 | so does one that leaves then with no mark left |
| `MembersOrder.TailDropsGood` | rust/thoth-ipc/src/channel.rs:935-947 | in a quiet run a commit that crosses a later lap or a new owner drops no mark |
| `MembersOrder.ConnDropsGood` | rust/thoth-ipc/src/channel.rs:459-473 | nor does a connecting receiver find one to drop |
| `MembersOrder.AdoptsWhereItJoined` | rust/thoth-ipc/src/channel.rs:480-510 | the cursor a receiver adopts is where the log ended when it claimed its bit |
| `MembersOrder.NextGood` | rust/thoth-ipc/src/channel.rs:1192-1342 | every step of a quiet run keeps the invariant of ring, commits and connects |
| `MembersOrder.CalmInv` | rust/thoth-ipc/src/channel.rs:1192-1342 | it holds in every state of every run in which membership changes quietly |
| `MembersOrder.CalmClaim` | rust/thoth-ipc/src/channel.rs:1236-1252 | in such a run a claim takes position `ct_`, the length of the log, and every connected receiver has read the element it overwrites |
| `MembersOrder.CalmIsOnce` | rust/thoth-ipc/src/channel.rs:1236-1252 | so no position is claimed twice |
| `MembersOrder.CalmTotalOrder` | rust/thoth-ipc/src/channel.rs:1192-1342 | at every point of such a run each receiver has popped the common log from its start to its cursor, byte for byte, in claim order |
| `MembersOrder.StartsAtTheEnd` | rust/thoth-ipc/src/channel.rs:651-672 | its start is the end of the log at its claim of the bit, so it misses nothing from then on |
| `MembersProgress.RingStepLifts` | rust/thoth-ipc/src/channel.rs:1192-1342 | every step of a writer short of its commit scan and of a receiver that has connected is a step of the channel with receivers coming and going |
| `MembersProgress.SoloCommit` | rust/thoth-ipc/src/channel.rs:935-947 | a commit that runs alone returns, from any point after its store in any run, whatever marks it finds stale |
| `MembersProgress.SoloConnect` | rust/thoth-ipc/src/channel.rs:676-684 | a connect that runs alone from its claim of a bit finishes: its `since` is recorded, no committed element from before it carries the bit any more, and the receiver polls at the cursor it adopted |
| `MembersProgress.PoppedSinceStart` | rust/thoth-ipc/src/channel.rs:480-510 | in every run, quiet or not, a receiver has popped one element for each position from its start to its cursor |
| `UnicastOrder.OtherWriter` | cpp/thoth-ipc/src/thoth-ipc/prod_cons.h:141-156 | two producers never write to the same slot at once |
| `UnicastOrder.MatchingFlag` | cpp/thoth-ipc/src/thoth-ipc/prod_cons.h:157-174 | a flag that matches a cursor no later than `wt_` is the flag of the position at `wt_`, committed and not yet passed |
| `UnicastOrder.PopKeeps` | cpp/thoth-ipc/src/thoth-ipc/prod_cons.h:185-214 | a winning pop takes the element at `rd_`, which is published, with its producer's bytes |
| `UnicastOrder.StepKeeps` | cpp/thoth-ipc/src/thoth-ipc/prod_cons.h:126-214 | every step of every producer and consumer keeps the ring invariant |
| `UnicastOrder.RunInv` | cpp/thoth-ipc/src/thoth-ipc/prod_cons.h:126-214 | the invariant holds in every state of every run |
| `UnicastOrder.CursorsBounded` | cpp/thoth-ipc/src/thoth-ipc/prod_cons.h:126-214 | always `rd <= wt <= ct <= rd + 255`, and every element in `[rd, wt)` is completely written |
| `UnicastOrder.CursorsGrow` | cpp/thoth-ipc/src/thoth-ipc/prod_cons.h:126-214 | the read, write and commit cursors of a run only move forward |
| `UnicastOrder.PoppedOnceInOrder` | cpp/thoth-ipc/src/thoth-ipc/prod_cons.h:126-214 | what has been popped by any point of a run is the first `rd` elements of the final claim log: each once, in commit order |
| `UnicastOrder.PopReturnsNext` | cpp/thoth-ipc/src/thoth-ipc/prod_cons.h:203-211 | the consumer whose CAS wins returns the element at `rd` and moves `rd` by one |
| `UnicastCalls.EmptyIsExact` | cpp/thoth-ipc/src/thoth-ipc/prod_cons.h:185-202 | with no other operation in flight, `pop` reports empty exactly when everything pushed has been popped |
| `UnicastCalls.SoloPopAnswers` | cpp/thoth-ipc/src/thoth-ipc/prod_cons.h:185-214 | a whole `pop` with no other operation in flight returns false exactly when everything pushed has been popped, and otherwise the next element of the log |
| `UnicastCalls.PopReturns` | cpp/thoth-ipc/src/thoth-ipc/prod_cons.h:185-214 | in every step of every run a `pop` under way goes on, returns the next element, or returns false having found the flag of the write cursor it loaded down; a lost race on `rd_` never makes it return |
| `UnicastCalls.PushReturns` | cpp/thoth-ipc/src/thoth-ipc/prod_cons.h:141-156 | in every step of every run a `push` in its claim loop keeps its message, claims the next position for it, or returns false from the full test; a lost race on `ct_` never makes it return |
| `UnicastCalls.PushPublishes` | cpp/thoth-ipc/src/thoth-ipc/prod_cons.h:157-175 | past its claim it returns only with the element completely written and flagged |
| `UnicastCalls.PushAnswers` | cpp/thoth-ipc/src/thoth-ipc/prod_cons.h:141-175 | over a whole call, whatever else runs: either the message is in the log at a position claimed during the call, completely written, or nothing was claimed and the call returned false from the full test |
| `UnicastProgress.FullIsExact` | cpp/thoth-ipc/src/thoth-ipc/prod_cons.h:144-148 | `push` reports full if and only if its commit index is current and 255 elements are in, or the index is stale and the read cursor just behind it, whole laps on |
| `UnicastProgress.EmptyBranchIsExact` | cpp/thoth-ipc/src/thoth-ipc/prod_cons.h:188-192 | `pop` goes to its empty test if and only if its read cursor is current and nothing is published, or the cursor is stale and the write cursor whole laps on |
| `UnicastProgress.EmptyVerdictIsExact` | cpp/thoth-ipc/src/thoth-ipc/prod_cons.h:192-197 | that test finds the flag up if and only if the loaded position is still the write cursor's and is flagged |
| `UnicastProgress.QuietIsFlagged` | cpp/thoth-ipc/src/thoth-ipc/prod_cons.h:157-174 | with no operation in flight, an element `wt_` has not passed is flagged, so a consumer can help it along |
| `UnicastProgress.LonePop` | cpp/thoth-ipc/src/thoth-ipc/prod_cons.h:185-214 | any run in whose last state an element is published, or flagged at the write cursor, extends, by steps of one idle thread alone, to the state with the next element of the log popped and nothing else changed but a helped write cursor |
| `UnicastProgress.SoloPopSucceeds` | cpp/thoth-ipc/src/thoth-ipc/prod_cons.h:185-214 | with no other operation in flight and something left, a `pop` does that |
| `UnicastProgress.LonePush` | cpp/thoth-ipc/src/thoth-ipc/prod_cons.h:141-175 | any run with fewer than 255 elements in its last state extends, by steps of one idle thread alone, to the state with its element in the ring, published if the write cursor had reached it |
| `UnicastProgress.SoloPopReturns` | cpp/thoth-ipc/src/thoth-ipc/prod_cons.h:185-214 | a `pop` that runs alone returns, from any point of it in any run, whatever it had loaded |
| `UnicastProgress.SoloPushReturns` | cpp/thoth-ipc/src/thoth-ipc/prod_cons.h:141-175 | so does a `push`, its helping loop included |
| `UnicastProgress.FullOnEmpty` | cpp/thoth-ipc/src/thoth-ipc/prod_cons.h:144-148 | there is a run in which `push` reports full on an empty ring that never held more than one element |
| `UnicastProgress.EmptyOnFilled` | cpp/thoth-ipc/src/thoth-ipc/prod_cons.h:188-197 | there is a run in which `pop` reports empty although a published element was in the ring in every state of the call |
| `RouteOrder.LapBefore` | rust/thoth-ipc/src/channel.rs:976-1010 | the slot the writer is about to reuse holds the element one lap before |
| `RouteOrder.UnmarkedIsSettled` | rust/thoth-ipc/src/channel.rs:976-1010 | a connected receiver whose bit is not on that slot has read its element |
| `RouteOrder.DiscountedIsSettled` | rust/thoth-ipc/src/liveness.rs:286-301 | a mark that `live_marks` discounts belongs to no receiver that still has to read the element |
| `RouteOrder.WalkSees` | rust/thoth-ipc/src/channel.rs:480-510 | while a receiver walks back from the cursor, the slot before it still holds that position, and carries its bit exactly from its first element on |
| `RouteOrder.WalkKeeps` | rust/thoth-ipc/src/channel.rs:480-510 | `adopt_cursor` stops exactly at the first element addressed to the receiver |
| `RouteOrder.ReloadKeeps` | rust/thoth-ipc/src/channel.rs:1035-1053 | a receiver releasing an element finds its own mark there |
| `RouteOrder.StepKeeps` | rust/thoth-ipc/src/channel.rs:951-1134 | every step of the writer and of joining, reading and leaving receivers keeps the invariant |
| `RouteOrder.RunInv` | rust/thoth-ipc/src/channel.rs:951-1134 | the invariant holds in every state of every run |
| `RouteOrder.GapFree` | rust/thoth-ipc/src/channel.rs:951-1134 | a connected receiver has popped the consecutive elements from its start to its cursor, each once with the bytes pushed, and the writer is at most 256 ahead |
| `RouteOrder.StartsAtFirstAddressed` | rust/thoth-ipc/src/channel.rs:654-684 | from its cursor read on, an element is addressed to a receiver if and only if it is at or after the receiver's start |
| `RouteOrder.NothingLeftBehind` | rust/thoth-ipc/src/channel.rs:1035-1053 | from its `since` on, an element still in the ring carries a receiver's mark if and only if it is at or after its cursor |
| `RouteOrder.BlockedExactly` | rust/thoth-ipc/src/channel.rs:973-980 | once a connected receiver has stored `since`, its bit holds the writer up if and only if it has not read the element one lap before |
| `RouteProgress.EveryBitHeld` | rust/thoth-ipc/src/channel.rs:656-672 | in every run every bit of the connection mask is held by a receiver |
| `RouteProgress.LeftoversDoNotBlock` | rust/thoth-ipc/src/channel.rs:973-980 | when every connected receiver has stored `since` and read the element one lap before, no mark on the next slot counts as live, for any bit of the mask |
| `RouteProgress.AdmittedMeansRead` | rust/thoth-ipc/src/channel.rs:973-1016 | a writer about to claim finds every connected receiver past the element it overwrites |
| `RouteProgress.SoloPush` | rust/thoth-ipc/src/channel.rs:951-1026 | then any run with an idle writer extends, by steps of the writer alone, to the state with its message pushed, whatever marks previous owners left, and nothing else changed |
| `RouteProgress.SoloPop` | rust/thoth-ipc/src/channel.rs:1057-1134 | any run in whose last state a polling receiver is behind the write cursor, or a receiver is anywhere past that, extends, by its steps alone, to the state with the element at its cursor popped and nothing else changed |
| `RouteProgress.SoloResume` | rust/thoth-ipc/src/channel.rs:951-1026 | under the conditions of `SoloPush`, a push that was stopped anywhere before its claim gets its message pushed alone, whatever it had loaded |
| `RouteProgress.SoloFinish` | rust/thoth-ipc/src/channel.rs:1020-1025 | one stopped anywhere after its claim publishes its element alone |
| `RouteProgress.SoloJoin` | rust/thoth-ipc/src/channel.rs:651-684 | a connect that runs alone while no push is in its window gets any free bit and starts at the write cursor |
| `RouteProgress.SoloLeave` | rust/thoth-ipc/src/channel.rs:1386 | a disconnect that runs alone clears the receiver's bit, which was set |
| `RouteCalls.PushReturns` | rust/thoth-ipc/src/channel.rs:960-1025 | in every step of every run a push that is held up by a live mark or loses its CAS goes on with its message; it returns only after publishing it, or when nobody is connected |
| `RouteCalls.PushAnswers` | rust/thoth-ipc/src/channel.rs:951-1026 | over a whole call the log has grown by exactly the message and the write cursor has passed it, or both are as they were and nobody was connected |
| `RouteCalls.ReadReturns` | rust/thoth-ipc/src/channel.rs:1034-1053 | a receiver that has seen an element stays at it until it has popped it with the bytes pushed |
| `HandoverProof.LoadFlagFacts` | rust/thoth-ipc/src/channel.rs:459-473 | `release_stale` decodes a committed slot's position exactly and takes on precisely a slot committed before its `since` |
| `HandoverProof.DropFacts` | rust/thoth-ipc/src/channel.rs:419-443 | what one access of `release_mark` may do to the slot: drop its own bit on its own lap, or release it when no mark is left |
| `HandoverProof.FreeIsReleased` | rust/thoth-ipc/src/channel.rs:1213-1235 | a flag that lets a writer into an unmarked slot is the release flag of the lap before the writer's own |
| `HandoverProof.ClaimIsNext` | rust/thoth-ipc/src/channel.rs:1236-1244 | a winning claim CAS takes the released slot for the lap after the one it holds, whatever moved since its loads |
| `HandoverProof.ClaimFacts` | rust/thoth-ipc/src/channel.rs:1213-1244 | a later lap claims the slot only when nobody reads or releases it and every receiver is past its position |
| `HandoverProof.StepKeeps` | rust/thoth-ipc/src/channel.rs:419-473 | every step of the committing writer, the connecting receivers, the readers and the claimants of later laps keeps the invariant |
| `HandoverProof.RunInv` | rust/thoth-ipc/src/channel.rs:419-473 | the invariant holds in every state of every run |
| `HandoverProof.LeftoverIsGone` | rust/thoth-ipc/src/channel.rs:935-947 | once the writer has returned from its commit and the bit's new owner from its connect, the previous owner's mark is gone |
| `HandoverProof.ReleasedIffUnmarked` | rust/thoth-ipc/src/channel.rs:426-438 | with nobody between the two accesses, a committed slot is released if and only if no mark remains |
| `HandoverProof.OnlyLeftoversDropped` | rust/thoth-ipc/src/channel.rs:419-473 | in every step of every run a mark disappears only because its own receiver read the element, or because it is a leftover on the handed-over position; no later lap's mark is dropped |
| `HandoverProgress.DropProgress` | rust/thoth-ipc/src/channel.rs:419-443 | a call of `release_mark` always has a step that takes it closer to its return, whatever it has loaded |
| `HandoverProgress.SoloCommit` | rust/thoth-ipc/src/channel.rs:935-947 | a commit that runs alone returns, from any point of it in any run |
| `HandoverProgress.SoloConnect` | rust/thoth-ipc/src/channel.rs:459-473 | a connect that runs alone finishes with the slot, from any point of it in any run |
| `HandoverProgress.LeftoverGoes` | rust/thoth-ipc/src/channel.rs:419-473 | whatever the commit and the connect have left half done, both can return, and then the previous owner's mark is gone |
| `HandoverProgress.SoloRead` | rust/thoth-ipc/src/channel.rs:1275-1335 | a read of the slot that runs alone completes, from any point of it in any run |
| `HandoverProgress.SoloClaim` | rust/thoth-ipc/src/channel.rs:1205-1244 | a writer that runs alone claims the released slot for the lap after |
| `RcWord.RegionsDetermine` | rust/thoth-ipc/src/channel.rs:277-282 | comparing the word is comparing epoch, generation and marks |
| `RcWord.WordsAreRecords` | rust/thoth-ipc/src/channel.rs:1240-1244 | two words are equal if and only if the step system takes the records they hold for the same |
| `RcWord.IncRegions` | rust/thoth-ipc/src/channel.rs:289-292 | `inc_rc` steps the generation with wrap-around and touches nothing else |
| `RcWord.ClaimRegions` | rust/thoth-ipc/src/channel.rs:1236 | a claim sets the epoch, replaces the marks by the receivers and steps the generation by one |
| `RcWord.ClaimHolds` | rust/thoth-ipc/src/channel.rs:1236 | the word a claim stores holds the record the step system stores |
| `RcWord.DropRegions` | rust/thoth-ipc/src/channel.rs:423 | a release or a dropped mark removes exactly its bits, keeps the epoch and steps the generation by one |
| `RcWord.DropHolds` | rust/thoth-ipc/src/channel.rs:1322 | the word a release or a dropped mark stores holds its record |
| `RcWord.GenerationCounts` | rust/thoth-ipc/src/channel.rs:289-296 | over any sequence of updates the generation is their number modulo 2^24 |
| `RcWord.NeverRepeats` | rust/thoth-ipc/src/channel.rs:289-296 | two values of the word fewer than 2^24 updates apart differ; the generations agree exactly at multiples of 2^24 |
| `FlagWord.CommitDecodes` | rust/thoth-ipc/src/channel.rs:459-468 | `release_stale` recognises exactly the committed flags and recovers the position from each |
| `FlagWord.FlagsDistinct` | rust/thoth-ipc/src/channel.rs:1226-1227 | initial, committed and released flags are never confused, and each determines its position |
| `FlagWord.CommittedIsHeld` | rust/thoth-ipc/src/channel.rs:1226-1227 | a committed slot passes no writer's test |
| `FlagWord.ReaderFreeExact` | rust/thoth-ipc/src/channel.rs:1313-1324 | a slot freed by its last reader is claimable by exactly its next claimant if and only if the position is below 2^32 - 256 or is 2^32 - 1 |
| `FlagWord.DropFreeExact` | rust/thoth-ipc/src/channel.rs:429-436 | the same for a slot freed by dropping its last mark: if and only if the position is below 2^32 - 256 |
| `FlagWord.FreeFlagsAgree` | rust/thoth-ipc/src/channel.rs:429-436 | the two ways of freeing a slot store the same flag for every position but 2^32 - 1 |
| `FlagWord.StuckAtWrap` | rust/thoth-ipc/src/channel.rs:1313-1324 | the slot of position 2^32 - 256, once freed, is claimable for no cursor |
| `BitWord.NextAddsOne` | rust/thoth-ipc/src/circ.rs:65 | the modelled `wrapping_add(1)` adds one modulo the width of the word |
| `BitWord.PrevSubtractsOne` | rust/thoth-ipc/src/liveness.rs:294 | the modelled `m - 1` subtracts one modulo the width of the word |
| `BitWord.AddBitAdds` | rust/thoth-ipc/src/channel.rs:290-291 | the modelled `wrapping_add` of a power of two is addition modulo the word's width |
| `BitWord.IsolatesLowest` | rust/thoth-ipc/src/liveness.rs:293 | `m & -m` is the lowest set bit alone |
| `BitWord.RemovesLowest` | rust/thoth-ipc/src/liveness.rs:294 | `m & (m - 1)` is `m` without its lowest set bit |
| `BitWord.SetsLowestClear` | rust/thoth-ipc/src/circ.rs:65 | a word or-ed with its successor has the lowest clear bit set; a full word is left alone |
| `BitWord.NewBit` | rust/thoth-ipc/src/circ.rs:74 | `next ^ curr` is that bit alone |
| `BitWord.CountIsSize` | rust/thoth-ipc/src/circ.rs:92-94 | `count_ones` is the number of set bits |
| `ReceiverMarks.LiveMarks` | rust/thoth-ipc/src/liveness.rs:286-301 | the loop returns exactly the marks whose owner started at or before the position, and all marks when there is no table |
| `ReceiverMarks.StaleMarks` | rust/thoth-ipc/src/channel.rs:937-946 | the commit loop drops exactly the marks that are not live, each once, lowest bit first |
| `Framing.PushFragments` | rust/thoth-ipc/src/channel.rs:884-906 | a message becomes the fewest elements that hold it, each carrying its own stretch of bytes and the count that remains; a push that times out ends it after the elements before |
| `Framing.Sender.constructor` | rust/thoth-ipc/src/channel.rs:711 | an endpoint starts with its message counter at 0 |
| `Framing.Sender.Send` | rust/thoth-ipc/src/channel.rs:851-906 | an empty message, an endpoint that is no sender, a route with another sender and a ring without receivers are refused in that order and push nothing; otherwise the message goes out under a fresh id and the counter steps |
| `Framing.Receiver.constructor` | rust/thoth-ipc/src/channel.rs:714 | a receiver starts with an empty cache |
| `Framing.Receiver.Assemble` | rust/thoth-ipc/src/channel.rs:1100-1185 | decoding and reassembling one element does what `Receive` says to the cache and returns its outcome |
| `Framing.Receiver.Drain` | rust/thoth-ipc/src/channel.rs:1100-1185 | reading any interleaved stretch of ring returns exactly the completed foreign messages and never copies out of range |
| `Framing.DecodedPart` | rust/thoth-ipc/src/channel.rs:1100-1122 | the bytes taken out of an element are the fragment it carries, and the last element is told from the others |
| `Framing.ReceiveKeeps` | rust/thoth-ipc/src/channel.rs:1142-1185 | one element keeps the cache right and delivers a message exactly when its last element arrives |
| `Framing.FinishedExactly` | rust/thoth-ipc/src/channel.rs:1142-1185 | the finished list names each message that is complete in the stream exactly once, and no other |
| `Framing.RoundTrip` | rust/thoth-ipc/src/channel.rs:884-1185 | for any messages with distinct ids and any interleaving of their fragments with self-sent slots and unfinished messages, exactly the complete foreign messages come out byte for byte in order of their last fragments, and the cache holds exactly the unfinished ones |
| `Framing.SentIsInterleaving` | rust/thoth-ipc/src/channel.rs:884-906 | what sending a message puts on the ring is a stream the round trip speaks of |
| `Framing.SendThenReceive` | rust/thoth-ipc/src/channel.rs:851-1185 | all elements of one sent message give back its bytes and leave the cache empty; one cut short by a timeout gives nothing back and stays cached |
| `MsgCodec.CodecRoundTrip` | rust/thoth-ipc/src/channel.rs:154-180 | an element laid out by `write_msg`, storage flag included, is read back unchanged by `read_header` and `read_payload` |
| `MsgCodec.Layout` | rust/thoth-ipc/src/channel.rs:138-161 | the header bytes: sender at 0, id at 4, remaining count in two's complement at 8, each lowest byte first, and at 12 the storage flag, 0 for an inline fragment |
| `MsgCodec.AnnouncedChunk` | rust/thoth-ipc/src/channel.rs:1089-1160 | an element that announces a large message leads another endpoint to the announced chunk for exactly the announced bytes, whatever it has cached |
| `MsgCodec.CarriedFits` | rust/thoth-ipc/src/channel.rs:154-162 | every fragment of a message under 2^31 bytes fits its header fields |
| `EndToEnd.SeenIsPushed` | rust/thoth-ipc/src/channel.rs:884-906 | at any point of the log the fragments seen of a message are those its sender has pushed |
| `EndToEnd.LogIsInterleaving` | rust/thoth-ipc/src/channel.rs:1192-1263 | whatever the interleaving of the claims of any number of writers, the fragments of each message stand in order in the log |
| `EndToEnd.CompletedGrows` | rust/thoth-ipc/src/channel.rs:1142-1185 | what is complete in a stretch of the stream is a prefix of what is complete in the whole |
| `EndToEnd.Delivered` | rust/thoth-ipc/src/channel.rs:1192-1342 | at every point of every run each receiver has delivered exactly the foreign messages complete in what it has read, byte for byte, as a prefix of one sequence fixed by the common log, and caches exactly the unfinished ones |
| `LateDelivery.LateInterleaving` | rust/thoth-ipc/src/channel.rs:884-906 | from any element on, the fragments still to come are those of the rests of the unfinished messages, in order |
| `LateDelivery.LateRoundTrip` | rust/thoth-ipc/src/channel.rs:1142-1185 | a receiver that starts at any element delivers exactly the rests that are complete, byte for byte and never out of range, and caches exactly the unfinished ones |
| `LateDelivery.WholeExactly` | rust/thoth-ipc/src/channel.rs:1142-1185 | such a rest is the whole message if and only if none of its fragments came before |
| `LateDelivery.RouteDelivered` | rust/thoth-ipc/src/channel.rs:951-1185 | at every point of every route run, with receivers that join and leave, what a receiver has popped decodes to the elements from its start to its cursor, and it has delivered exactly the messages, or rests, complete in them |
| `LateDelivery.CalmDelivered` | rust/thoth-ipc/src/channel.rs:1192-1342 | the same for a channel whose membership changes quietly, for any traffic of any number of writers |
| `Wakeup.WaitHas` | rust/thoth-ipc/src/waiter.rs:40-56 | a waiter whose predicate is settled never enters a wait, and one whose counter is outdated never falls asleep |
| `Wakeup.FreeMutex` | rust/thoth-ipc/src/waiter.rs:67-71 | while the barrier holds the mutex, nobody is between its predicate test and its release |
| `Wakeup.NoWaitersKeeps` | rust/thoth-ipc/src/condition.rs:463-476 | a broadcast that finds the waiter count at zero leaves nobody asleep |
| `Wakeup.StepKeeps` | rust/thoth-ipc/src/condition.rs:362-476 | every step of waiting and signalling keeps the invariant |
| `Wakeup.RunInv` | rust/thoth-ipc/src/condition.rs:362-476 | the invariant holds in every state of every run |
| `Wakeup.NoLostWakeup` | rust/thoth-ipc/src/waiter.rs:40-71 | once a change has made predicates false for good and its broadcast has completed, none of their threads is asleep in `wait_if`, then or ever after |
| `Wakeup.SkippedWakeIsHarmless` | rust/thoth-ipc/src/condition.rs:463-476 | `broadcast` skips the wake-up call only when nobody is asleep |
| `WakeupCalls.TestIsExact` | rust/thoth-ipc/src/waiter.rs:45 | the test of `wait_if` leads to the exit if and only if the predicate is false, and into a wait if and only if it is true |
| `WakeupCalls.RelockIsExact` | rust/thoth-ipc/src/waiter.rs:46-52 | after a wait, a call that timed out exits and any other goes back to its test |
| `WakeupCalls.WaitAnswers` | rust/thoth-ipc/src/waiter.rs:38-57 | whoever is about to return true came there from a test that found its predicate false under the mutex, and whoever is about to return false from a wait that timed out |
| `WakeupCalls.ReturnsFromExit` | rust/thoth-ipc/src/waiter.rs:45-57 | a call returns from nowhere else |
| `WakeupCalls.SoloWait` | rust/thoth-ipc/src/condition.rs:433-450 | a call that runs alone with its predicate true goes to sleep, counted as a waiter |
| `WakeupCalls.SoloBroadcast` | rust/thoth-ipc/src/waiter.rs:67-71 | a broadcast that runs alone with a waiter counted wakes every sleeper |
| `WakeupCalls.SoloNotify` | rust/thoth-ipc/src/condition.rs:452-461 | a notify that runs alone wakes the sleeper the kernel picks |
| `WakeupCalls.SoloReturn` | rust/thoth-ipc/src/waiter.rs:45-57 | a woken call that runs alone with its predicate false returns true |
| `WakeupCalls.SoloTimeout` | rust/thoth-ipc/src/waiter.rs:46-50 | a sleeper whose wait times out returns false |
| `WakeupCalls.SleepsAndIsWoken` | rust/thoth-ipc/src/waiter.rs:38-71 | any run with the mutex free and two idle threads goes on to one in which the first waits and sleeps, the second makes its predicate false and broadcasts, and the first is woken and returns true |
| `SoleSender.LiveOwnerLooksAlive` | rust/thoth-ipc/src/liveness.rs:137-157 | a record held by a live owner never looks dead to a claimant |
| `SoleSender.ClaimKeeps` | rust/thoth-ipc/src/liveness.rs:333-338 | a winning claim CAS finds no live endpoint claiming or holding |
| `SoleSender.StepKeeps` | rust/thoth-ipc/src/liveness.rs:325-355 | every step of claims, releases, process starts and crashes keeps the invariant |
| `SoleSender.RunInv` | rust/thoth-ipc/src/liveness.rs:325-355 | the invariant holds in every state of every run |
| `SoleSender.SoleOwner` | rust/thoth-ipc/src/liveness.rs:325-355 | at most one live endpoint is claiming or holding the record, whatever crashes |
| `SoleSender.StuckClaim` | rust/thoth-ipc/src/liveness.rs:317-343 | a record at `OWNER_CLAIMING` has a claimant in flight or crashed mid-claim |
| `SoleSender.HolderIsRecorded` | rust/thoth-ipc/src/liveness.rs:340-343 | a live holder is the process the record names and never looks dead |
| `SoleSender.ClaimReturns` | rust/thoth-ipc/src/liveness.rs:325-339 | a claim that found the record free or its holder dead answers false only if the record was written since |
| `SoleSender.SoloClaim` | rust/thoth-ipc/src/liveness.rs:325-344 | a claim that runs alone on a record that is free, or whose holder the check may call dead, ends holding it with its own pid and token |
| `SoleSender.SoloRefused` | rust/thoth-ipc/src/liveness.rs:325-338 | a claim that runs alone on a record some live endpoint claims or holds is refused and leaves everything as it was |
| `SoleSender.SoloRelease` | rust/thoth-ipc/src/liveness.rs:346-356 | a release that runs alone frees the record |
| `PidReturns.BreaksExactly` | rust/thoth-ipc/src/liveness.rs:333-338 | from a state with one owner at most, a claim CAS that compares the pid alone makes two owners if and only if the record was written since the claimant read it and its last writer is alive and claiming or holding |
| `PidReturns.SoleOwnerExactly` | rust/thoth-ipc/src/liveness.rs:325-355 | every state of a run has at most one live owner if and only if no claim of the run is of that kind |
| `PidReturns.VersionIsPid` | rust/thoth-ipc/src/liveness.rs:325-355 | between two points of any run the record is unwritten if and only if every state between shows the same pid |
| `PidReturns.GuardIsReturn` | rust/thoth-ipc/src/liveness.rs:333-338 | in every run, a claim whose CAS finds the pid it read passes the guard if and only if that pid is 0 or no state since the read shows another pid |
| `PidReturns.ReturnBreaksSoleOwner` | rust/thoth-ipc/src/liveness.rs:325-355 | there is a run, with no crash and no pid reuse, that ends with two live owners |
| `ReaperSafety.LiveHolderLooksAlive` | rust/thoth-ipc/src/liveness.rs:430-438 | the holder of a bit whose own record is read unchanged never looks dead while it lives |
| `ReaperSafety.ReapKeeps` | rust/thoth-ipc/src/liveness.rs:440-444 | a winning reaping CAS keeps the invariant: if the record is the holder's own and unwritten since it was read, the holder is dead |
| `ReaperSafety.TakesLiveExactly` | rust/thoth-ipc/src/liveness.rs:445-447 | a clear takes the bit of a live receiver if and only if the bit is held by a claim other than the one whose record its reaper took, by a receiver that is alive |
| `ReaperSafety.StepKeeps` | rust/thoth-ipc/src/liveness.rs:417-450 | every step of reapers, connecting and disconnecting receivers, starts and crashes, except such a clear, keeps the invariant |
| `ReaperSafety.RunInv` | rust/thoth-ipc/src/liveness.rs:417-450 | the invariant holds up to the first such clear of a run |
| `ReaperSafety.SafeExactly` | rust/thoth-ipc/src/channel.rs:1386-1389 | every live receiver keeps its bit throughout a run if and only if the run has no such clear |
| `ReaperSafety.ReapsOnlyTheDead` | rust/thoth-ipc/src/liveness.rs:417-450 | up to the first such clear, a reaper whose record is of the claim by which the bit is held clears the bit of a dead receiver or one nobody holds |
| `ReaperSafety.ReapedAtMostOnce` | rust/thoth-ipc/src/liveness.rs:417-450 | and two clears never take a bit from the same holder |
| `ReaperSafety.CleanIsSafe` | rust/thoth-ipc/src/channel.rs:643-686 | a run in which no claim of a bit overtakes a disconnect or a clear of it, and no record is written between a reaper's read and its CAS, has no such clear |
| `ReaperSafety.CleanReapsTheDead` | rust/thoth-ipc/src/liveness.rs:417-450 | in such a run a reaper clears only bits of dead receivers |
| `ReaperSafety.CleanReapsOnce` | rust/thoth-ipc/src/liveness.rs:417-450 | and each receiver's at most once |
| `ReaperProgress.LooksAtEveryBit` | rust/thoth-ipc/src/liveness.rs:425-449 | a reaper that goes on to claim a bit has looked at the record of every bit of the mask it loaded |
| `ReaperProgress.SoloReap` | rust/thoth-ipc/src/liveness.rs:425-449 | a reaper that runs alone clears the bit and the record of a receiver whose record shows no running process |
| `ReaperProgress.CasIsExact` | rust/thoth-ipc/src/liveness.rs:440-447 | a reaper that found a receiver dead takes its record if and only if it still shows that pid |
| `ReaperProgress.SoloLook` | rust/thoth-ipc/src/liveness.rs:425-449 | a reaper that runs alone and is told that every holder is alive gets through its mask and leaves everything as it was |
| `ReaperProgress.SoloConnect` | rust/thoth-ipc/src/channel.rs:653-686 | and with nothing left to look at connects on any free bit and records itself |
| `DisconnectGap.LiveReceiverReaped` | rust/thoth-ipc/src/channel.rs:1386-1389 | there is a run, with no crash and no pid reuse, in which a reaper clears the bit of a live receiver that is connecting behind an unfinished disconnect |
| `DisconnectGap.ReturnedReceiverReaped` | rust/thoth-ipc/src/liveness.rs:430-447 | there is a run, with no crash, no pid reuse and no claim that overtakes a disconnect or a clear, in which a reaper clears the bit of a live, fully connected receiver whose pid left the record and came back |
| `ChunkPool.ChunkInfo.constructor` | rust/thoth-ipc/src/chunk_storage.rs:83-96 | a fresh pool is zeroed |
| `ChunkPool.ChunkInfo.Prepare` | rust/thoth-ipc/src/chunk_storage.rs:98-106 | the loop turns the pool into `Prepared` of what it was |
| `ChunkPool.ChunkInfo.Acquire` | rust/thoth-ipc/src/chunk_storage.rs:108-116 | changes the pool in place and returns an id as `Acquired` says |
| `ChunkPool.ChunkInfo.Release` | rust/thoth-ipc/src/chunk_storage.rs:118-126 | changes the pool in place as `Released` says |
| `ChunkPool.PrepareBuilds` | rust/thoth-ipc/src/chunk_storage.rs:98-106 | a zeroed pool becomes the free list of all ids |
| `ChunkPool.PrepareAgain` | rust/thoth-ipc/src/chunk_storage.rs:98-106 | preparing a pool again leaves its free list |
| `ChunkPool.AcquirePops` | rust/thoth-ipc/src/chunk_storage.rs:108-116 | acquiring takes the head of the free list, and fails exactly when it is empty |
| `ChunkPool.ReleasePushes` | rust/thoth-ipc/src/chunk_storage.rs:118-126 | releasing an id that is not free puts it at the head of an acyclic list |
| `ChunkPool.OneFreeList` | rust/thoth-ipc/src/chunk_storage.rs:83-126 | the links determine the free list |
| `ChunkPool.ChunkSize` | rust/thoth-ipc/src/chunk_storage.rs:148-151 | the chunk size is the least multiple of 1024 that holds header and payload |
| `ChunkPool.PayloadsDisjoint` | rust/thoth-ipc/src/chunk_storage.rs:295-306 | payloads of different ids lie inside the segment and clear of each other and of every header |
| `ChunkLife.AcquireKeeps` | rust/thoth-ipc/src/chunk_storage.rs:229-246 | acquiring keeps the invariant and fails exactly when the free list is empty |
| `ChunkLife.ReleaseKeeps` | rust/thoth-ipc/src/chunk_storage.rs:274-279 | a returned chunk was not free and goes back to the head of the list |
| `ChunkLife.StepKeeps` | rust/thoth-ipc/src/chunk_storage.rs:229-280 | every step of senders and recycling receivers keeps the invariant |
| `ChunkLife.RunInv` | rust/thoth-ipc/src/chunk_storage.rs:229-280 | the invariant holds in every state of every run |
| `ChunkLife.PoolConserved` | rust/thoth-ipc/src/chunk_storage.rs:229-280 | in every run the free list read off the pool is acyclic and is exactly the complement of the ids handed out |
| `ChunkLife.AcquireFailsWhenExhausted` | rust/thoth-ipc/src/chunk_storage.rs:229-246 | `acquire_storage` fails if and only if every chunk is in use |
| `ChunkLife.ReturnedOnceByLast` | rust/thoth-ipc/src/chunk_storage.rs:257-280 | a chunk returns to the pool when its last stamped receiver has cleared its bit, and nobody else returns it |
| `ChunkLife.SoloAcquire` | rust/thoth-ipc/src/chunk_storage.rs:229-246 | a sender that runs alone while a chunk is free takes the head of the free list and stamps it with the receivers it loaded |
| `ChunkLife.SoloRecycle` | rust/thoth-ipc/src/chunk_storage.rs:257-280 | a recycle that runs alone completes, whatever mask it had loaded, and the last stamped receiver puts the chunk back at the head of the list |
| `ConnHead.ClaimFails` | rust/thoth-ipc/src/circ.rs:64-68 | the claim leaves the word as it is exactly when all 32 bits are set |
| `ConnHead.ClaimSetsLowest` | rust/thoth-ipc/src/channel.rs:656-672 | otherwise it sets the lowest clear bit, and the id is that bit alone |
| `ConnHead.DisconnectClears` | rust/thoth-ipc/src/circ.rs:82-84 | disconnecting clears exactly the bits of the id |
| `ConnHead.StepKeeps` | rust/thoth-ipc/src/channel.rs:363-382 | every step of initialising, connecting and disconnecting keeps the invariant |
| `ConnHead.RunInv` | rust/thoth-ipc/src/channel.rs:363-382 | the invariant holds in every state of every run |
| `ConnHead.InitialisedOnce` | rust/thoth-ipc/src/channel.rs:363-382 | the header is initialised at most once, and before any receiver holds a bit |
| `ConnHead.NoLateWipe` | rust/thoth-ipc/src/circ.rs:42-51 | when the zero store happens nobody holds a bit, so no late initialiser wipes one |
| `ConnHead.HeldIdsAreTheMask` | rust/thoth-ipc/src/circ.rs:60-84 | no two receivers hold the same bit, and the mask is the union of the bits held |
| `ConnHead.CountIsHolders` | rust/thoth-ipc/src/circ.rs:92-94 | `conn_count` is the number of receivers holding an id |
| `ConnHead.RefusedWhenFull` | rust/thoth-ipc/src/channel.rs:656-663 | a load of the mask refuses a receiver if and only if 32 hold an id |
| `ConnHead.RefusedOnlyWhenFull` | rust/thoth-ipc/src/channel.rs:656-674 | in every step of every run a receiver that becomes refused finds 32 others holding an id; losing the CAS never refuses it |
| `ConnHead.ConnectReturns` | rust/thoth-ipc/src/channel.rs:656-674 | a receiver that is connecting goes on, gets the lowest clear bit of the mask, or is refused so |
| `ConnHead.SoloOpen` | rust/thoth-ipc/src/channel.rs:363-382 | an opener that runs alone initialises the header if nobody has, and comes to its connect |
| `ConnHead.SoloConnect` | rust/thoth-ipc/src/channel.rs:656-674 | a connect that runs alone with fewer than 32 ids held ends holding the lowest clear bit, whatever mask it had loaded |
| `ConnHead.SoloDisconnect` | rust/thoth-ipc/src/circ.rs:82-84 | a disconnect that runs alone gives back the bit it held and no other |
| `RwLock.RunInv` | rust/thoth-ipc/src/rw_lock.rs:49-99 | every step keeps the invariant, so it holds in every state of every run |
| `RwLock.WordCounts` | rust/thoth-ipc/src/rw_lock.rs:49-99 | the word is the writer flag plus the number of threads reading |
| `RwLock.Exclusive` | rust/thoth-ipc/src/rw_lock.rs:49-68 | a writer shares the lock with no reader, and at most one writer is past its `fetch_or` |
| `RwLock.WriterBlocksReaders` | rust/thoth-ipc/src/rw_lock.rs:76-94 | no reader enters while a writer waits for the readers to leave, or writes |
| `RwLock.ReturnsWithTheLock` | rust/thoth-ipc/src/rw_lock.rs:49-94 | a thread that has called `lock` or `lock_shared` stays in the call until it has the lock it asked for |
| `RwLock.SoloLock` | rust/thoth-ipc/src/rw_lock.rs:49-56 | a `lock` that runs alone gets the lock when nobody reads or writes |
| `RwLock.SoloDrained` | rust/thoth-ipc/src/rw_lock.rs:63-68 | a writer that waits for readers goes in once the last of them has left |
| `RwLock.SoloLockShared` | rust/thoth-ipc/src/rw_lock.rs:76-94 | a `lock_shared` that runs alone gets in while no writer writes or waits, whatever word it had loaded |
| `RwLock.SoloUnlock` | rust/thoth-ipc/src/rw_lock.rs:70-72 | an `unlock` that runs alone leaves the word at 0, with nobody reading or writing |
| `RwLock.SoloUnlockShared` | rust/thoth-ipc/src/rw_lock.rs:97-99 | an `unlock_shared` that runs alone takes one reader off the word, which never wraps |
| `SyncStamp.StepKeeps` | rust/thoth-ipc/src/sync_abi.rs:206-316 | every step keeps the invariant, and a published stamp is left alone |
| `SyncStamp.RunInv` | rust/thoth-ipc/src/sync_abi.rs:206-316 | the invariant holds in every state of every run |
| `SyncStamp.OneInitialiser` | rust/thoth-ipc/src/sync_abi.rs:254-266 | at most one opener ever initialises the stamp |
| `SyncStamp.PublishedIsFixed` | rust/thoth-ipc/src/sync_abi.rs:268-284 | once published, the fields are the initialiser's expectations and never change |
| `SyncStamp.Agreement` | rust/thoth-ipc/src/sync_abi.rs:206-316 | any two openers that ever return success expected the same five values |
| `SyncStamp.MismatchIsReal` | rust/thoth-ipc/src/sync_abi.rs:297-316 | validation succeeds if and only if the opener expected what is published |
| `SyncStamp.StuckMeansCrashed` | rust/thoth-ipc/src/sync_abi.rs:225-250 | from a zeroed stamp the magic word is one of three values, and a stamp left in progress has an opener storing or crashed |
| `SyncStamp.AnswersAreReal` | rust/thoth-ipc/src/sync_abi.rs:206-316 | in every step of every run an opener that answers success agrees with the published stamp, one that answers mismatch differs from it, and one that times out has seen an initialisation in progress |
| `SyncStamp.SoloInit` | rust/thoth-ipc/src/sync_abi.rs:254-284 | an opener that runs alone on a zeroed stamp publishes its expectations and succeeds |
| `SyncStamp.SoloValidate` | rust/thoth-ipc/src/sync_abi.rs:220-222 | an opener that runs alone on a published stamp succeeds if it expected what is published and reports a mismatch otherwise |
| `BufferOrder.TokenMeansRoom` | rust/thoth-ipc/src/bin/demo_bounded_buffer.rs:87-92 | a producer with a token finds a free slot, a consumer with one an unread item |
| `BufferOrder.StepKeeps` | rust/thoth-ipc/src/bin/demo_bounded_buffer.rs:87-135 | every step of every producer and consumer keeps the invariant |
| `BufferOrder.RunInv` | rust/thoth-ipc/src/bin/demo_bounded_buffer.rs:87-135 | the invariant holds in every state of every run |
| `BufferOrder.TakenInOrder` | rust/thoth-ipc/src/bin/demo_bounded_buffer.rs:87-135 | items are taken once each in the order they were written, and each semaphore's count is its initial value plus posts minus successful waits |
| `BufferOrder.NoUnreadOverwritten` | rust/thoth-ipc/src/bin/demo_bounded_buffer.rs:92-101 | a write never lands on a slot that holds an unread item |
| `BufferOrder.QuietCounts` | rust/thoth-ipc/src/semaphore.rs:130-182 | with nobody in flight the semaphores count the filled and the free slots |
| `BufferProgress.SoloProduce` | rust/thoth-ipc/src/bin/demo_bounded_buffer.rs:87-104 | a producer that runs alone with a token in `empty` and the mutex free puts its item in the slot at the head and posts `full` |
| `BufferProgress.SoloConsume` | rust/thoth-ipc/src/bin/demo_bounded_buffer.rs:117-134 | a consumer that runs alone with a token in `full` and the mutex free takes the oldest item not taken and posts `empty` |

## Left out

- Weak memory: atomics are sequentially consistent, so the Acquire and Release choices are not covered.
- Forced push after a timeout and the epoch change it makes: it gives up delivery on purpose.
- EndToEnd.Delivered: for receivers connected before the first push; `LateDelivery` has those that join later, on the route and on a quiet channel.
- LateDelivery.RouteDelivered: what the route carries is taken to be encoded elements whose fragments are in order; `Framing.PushFragments` makes them so for each message.
- MembersOrder.CalmTotalOrder: requires quiet membership changes; a receiver that connects while a push is in its window, or leaves with marks on the ring, can break the order (`MembershipRuns`), and then only `MembershipGap.OnceExactly` and, for one slot, `HandoverProof` are proved.
- HandoverProof.StepKeeps: the writers of later laps have loaded a mask with every handed-over bit in it; older masks are `MembershipGap`'s subject.
- A receiver that dies while it connects: it has no owner record yet, so its bit is never reaped; in `ChannelMembers` its connect stays where it is.
- Framing.Sender.Send: whether the endpoint is the route's sole sender, whether somebody receives, and the value of the shared counter are parameters.
- Framing.RoundTrip: covers inline fragments; an element that announces a large message ends at the id and size of its chunk (`MsgCodec.AnnouncedChunk`), and the chunk itself is `ChunkPool` and `ChunkLife`.
- ChunkLife.StepKeeps: the sections under the pool's spin lock are one step each, and every stamped receiver recycles a chunk once.
- ConnHead.StepKeeps: eviction and reaping of bits are not steps there; `Reaper` has reaping.
- ReaperSafety.StepKeeps: forced eviction is not modelled.
- Wakeup.NoLostWakeup: the kernel's compare-and-block is one step and the mutex is taken as given; fairness and the latency of a wake-up are not modelled.
- BufferOrder.TakenInOrder: an item is opaque; cutting it to 47 bytes and the terminating zero are left out, and the mutex is taken as given.
- The concurrent protocols are step systems over values rather than classes: update in place and aliasing are not captured there, the order of accesses is.
- Fairness: spinning, yielding and deadlines appear only as steps that retry or give up; progress is stated for a thread that runs alone.
- OS calls (shared memory, process tables, futex and ulock, Win32) appear as a liveness check and a compare-and-block.
- Notification handles and async receive, the crypto envelope, ABI generation, build scripts, tools and the other demos.
- The C++ duplicates of liveness, the reader-writer lock and the queues: the Rust forms are modelled.
- The unicast connection head, POSIX semaphores and the Windows condition variable.
