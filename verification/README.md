# SRaft and mymuduo: a verified model

Two systems are modelled. `SRaft/` is a Raft-like replicated log under a key-value store; `mymuduo/` is a
reactor network library.

**SRaft.** `RaftNode.dfy` gives one node as a value and what each handler makes of it; `SRaft.dfy` is the
object itself, whose methods and loops are proved to compute exactly that. `Cluster.dfy` puts any number
of such servers around a set of calls in flight. Each call is a detached thread of its process
(`SRaft/SRaftRpc.cc:10-42`): it can be delayed, overtaken or lost, a request can arrive twice, an answer
can only reach the process that asked, and any node can crash at any time and start again from its
persisted file. The rules are the code's, not the paper's. A vote needs a strictly higher term. A vote
reply carries the voter's old term. A follower that does not find the previous entry drops its whole log.
Only leaders commit. `Terms.dfy` and `Heartbeats.dfy` say what every
node's term, role, file and answers do in any run, by the messages alone; `Runs.dfy` builds the runs that
serve as counterexamples below.

Some results need hypotheses on the run. Each is a predicate in `Cluster.dfy`:

| predicate | meaning |
|---|---|
| `TermsDoNotWrap` | no `uint64_t` term counter passes 2^64 - 1 |
| `VoteRepliesAreCurrent` | a vote reply reaches its candidate before a later campaign |
| `MintsAreFresh` | no (term, index) pair is minted twice |
| `RequestsArriveInOrder` | requests with entries reach a node in the order sent; losses allowed, replies in any order |
| `HasSoleLeader` | one node only is ever leader and, once it is, it stays leader; logs start empty |

Where the code does not do what one would expect, the exact condition is proved:

* Elections are unique exactly in clusters of odd size and of size 2 (`ElectsUniquelyExactly`): in every
  other cluster there is a run with two winners of one term (`EvenClustersCanSplit`).
* A candidate escapes the election restriction exactly when its log is empty (`RestrictionHoldsExactly`):
  it announces last term 2^64 - 1. `EmptyLogGetsVote` is a run in which it does.
* Two exchanges bring a follower up to date exactly when the leader's next index for it is not 0 at the
  second send (`SecondExchangeCatchesUpExactly`); replies may reach the leader in any order, stale ones
  among them. Two runs of three nodes show how it becomes 0: a success the leader already counted as
  committed is ignored (`TwoExchangesCanFail`), or a late refusal from before the follower was running
  sets it back (`StaleRefusalCanFail`). When no other reply comes between the first reply and the second
  send, the ignored success is the only way (`UndisturbedExchangeCatchesUpExactly`).
* Everything committed is held by a strict majority exactly in clusters of up to three nodes
  (`CommitsByMajorityExactly`): in every larger one there is a run that commits an entry which at most
  half of the nodes hold (`MinorityCommits`).
* A text command survives the round trip exactly when its three parts are single words
  (`RoundTripExactly`).
* The event loop can block on a pending functor only if its own thread queued one outside `loop()`
  (`NoLostWakeupWhenQueuedInside`). Left to its own thread, it reaches its first poll with everything
  announced exactly when that thread queued none there (`FirstPollSafeExactly`).
* A connection's byte stream is whole exactly as long as no send with bytes met EPIPE or ECONNRESET
  (`StreamInOrderExactly`).

**mymuduo.** `Wakeup.dfy` is the protocol between the loop thread and its producers, one step for each
point where they touch shared state; `EventLoop.dfy` is the object, and each of its methods returns the
trace of protocol steps it performs. `Buffer.dfy` is the byte window over a growing array.
`Connection.dfy` is the output side of a connection over arbitrary kernel answers and `TcpConnection.dfy`
the object over its buffers. `EPoll.dfy` and `EPollPoller.dfy` are the poller's mirror of the kernel set.

The top-level README of the repository lists snapshots among the parts of Raft it implements; the code has
none, and the model follows the code.

## Model

| member | source | states |
|---|---|---|
| RaftLog.FindLog | SRaft/SRaft.h:93-103 | the result is the last position with that term and index, -1 exactly when there is none |
| RaftLog.GetLogByIndexSpec | SRaft/SRaft.cc:425-442 | on a contiguous log an index is found exactly between base and last, despite the unsigned subtraction |
| RaftLog.EntriesFromSpec | SRaft/SRaft.cc:224-232 | reading from a stale index yields exactly the tail of the log, or a blank entry when it lies below the base |
| RaftLog.SpliceSpec | SRaft/SRaft.cc:273-282 | a found previous entry keeps the log up to it, a missing one drops the whole log through the wrap-around of 2^64 - 1 |
| SRaftServer.SRaft.constructor | SRaft/SRaft.cc:11-28 | a new process is a follower at term 0 with an empty log, not running, whatever is on disk |
| SRaftServer.SRaft.Run | SRaft/SRaft.cc:37-44 | the node takes term, vote and log from its file and starts running |
| SRaftServer.SRaft.Dump | SRaft/SRaft.cc:45-62 | the file afterwards holds exactly term, vote and the whole log |
| SRaftServer.SRaft.Load | SRaft/SRaft.cc:63-85 | term, vote and log become those of the file; without a file nothing changes |
| SRaftServer.SRaft.OnTimer | SRaft/SRaft.cc:95-116 | exactly one of heartbeat, election or election failure, by role and due time, and the new due times; an election fails in the tick that started it only if the clock was set back |
| SRaftServer.SRaft.DoElection | SRaft/SRaft.cc:124-153 | the new term is persisted with a vote for itself before any request; alone, the node leads at once |
| SRaftServer.SRaft.DoLog | SRaft/SRaft.cc:155-178 | the two refusals by result code, and otherwise the new entry, persisted, and the request for every peer |
| SRaftServer.SRaft.DoApply | SRaft/SRaft.cc:180-200 | exactly the non-empty commands up to the commit index reach the channel, in order, and none twice |
| SRaftServer.SRaft.SendAppendEntries | SRaft/SRaft.cc:210-235 | one request for each peer from its next index, none where it would carry a blank entry |
| SRaftServer.SRaft.FindLog | SRaft/SRaft.h:93-103 | the backward loop finds the last match, and returns -1 as 2^64 - 1 |
| SRaftServer.SRaft.OnAppendEntriesRequest | SRaft/SRaft.cc:238-290 | new state and reply for every branch: not running, smaller term, heartbeat, accepted, refused |
| SRaftServer.SRaft.OnAppendEntriesResponse | SRaft/SRaft.cc:292-346 | new indices, commit index and pushed commands for every branch, also after stepping down |
| SRaftServer.SRaft.CountMatching | SRaft/SRaft.cc:329-337 | the commit vote is this node and the peers whose match index reaches the new commit |
| SRaftServer.SRaft.OnRequestVoteRequest | SRaft/SRaft.cc:348-396 | new state and reply for every branch; only a grant is persisted, and the reply carries the old term |
| SRaftServer.SRaft.OnRequestVoteResponse | SRaft/SRaft.cc:398-423 | a higher term is adopted after persisting the lower one, and a vote counts only for a candidate |
| ElectionRestriction.GrantExactly | SRaft/SRaft.cc:360-389 | which requests get a vote, for any last index and term, in plain integers: a last index of -1 passes for the largest |
| ElectionRestriction.VoteRule | SRaft/SRaft.cc:144-146 | a vote is granted exactly to a higher term whose log is empty or at least as up to date as the voter's |
| ElectionRestriction.GrantImpliesUpToDate | SRaft/SRaft.cc:360-389 | a granted candidate with a non-empty log has a lexicographically greater or equal (last term, length) |
| EmptyLog.RestrictionHoldsExactly | SRaft/SRaft.cc:360-389 | no voter that occurs in a run and has a better log grants a candidate, if and only if the candidate's log is not empty |
| EmptyLog.EmptyLogGetsVote | SRaft/SRaft.cc:144-146 | a run in which a node that holds an entry votes for a candidate that holds none |
| ElectionRestriction.OrderIsTotalAndTransitive | SRaft/SRaft.cc:360-363 | the order of logs is total and transitive |
| Cluster.StaysWellFormed | SRaft/SRaftRpc.cc:10-42 | every step of every node keeps membership, addressing of calls, and idle nodes fresh |
| OneVote.HandlerCoversVotes | SRaft/SRaft.cc:124-131 | each handler casts at most one vote, above the persisted term, and leaves it persisted |
| OneVote.NoNodeVotesTwice | SRaft/SRaft.cc:365-395 | in every run with crashes, loss and redelivery no node votes for two candidates in one term |
| OneVote.PersistedTermCoversVotes | SRaft/SRaft.cc:402-408 | the persisted term is at least every term voted in and never above the term in memory |
| Elections.QuorumsMeetExactly | SRaft/SRaft.cc:414-421 | two sets of the coded size always share a node if and only if the cluster size is odd or 2 |
| Elections.OneLeaderPerCampaignTerm | SRaft/SRaft.cc:398-423 | at most one node ever becomes leader in its campaign for a given term, in every run |
| SplitVote.EvenClustersCanSplit | SRaft/SRaft.cc:414-421 | in every cluster of an even size from 4 on a run exists in which two nodes win the same term |
| SplitVote.ElectsUniquelyExactly | SRaft/SRaft.cc:398-423 | over all runs of a cluster no term is won twice, if and only if its size is odd or 2 |
| Terms.TermIsHighestHeard | SRaft/SRaft.cc:365-375 | in every run a running node's term rises by its campaigns and to the highest term heard in a vote request, vote reply or heartbeat, refusals included, and by nothing else |
| Terms.RoleExactly | SRaft/SRaft.cc:390-393 | exactly when a running node is leader or candidate after any step of any run: who is elected, overruled or deposed |
| Terms.VotersDoNotLead | SRaft/SRaft.cc:391 | whoever votes for another node is no leader after that step |
| Terms.RefusingLeaderLeadsOn | SRaft/SRaft.cc:373-391 | a leader adopts the higher term of a vote request, and leads on in it exactly when it refuses the vote |
| Terms.EntriesNeedTheTerm | SRaft/SRaft.cc:254-258 | in every run a request changes a log in memory or on disk, or is answered with success, only at a running node whose term it reaches; success exactly when it also reaches back to the base |
| Terms.VotesGuardTheLog | SRaft/SRaft.cc:254-258 | a node that voted in a term never again changes its log for a request of a smaller one, through crashes too |
| Terms.CommandsNeedALeader | SRaft/SRaft.cc:155-178 | a command is logged next after the last entry, in the leader's term, exactly by a running leader; elsewhere nothing happens |
| Terms.AnswersReport | SRaft/SRaft.cc:242-247 | a replication request is always answered, a vote request exactly by a running node; every answer carries the name and the term from before the step, a replication reply also the end of the log after it |
| Terms.ReplyTermOnlyDeposes | SRaft/SRaft.cc:301-345 | a replication reply moves indices and commits alike whatever its term: a leader it deposes goes on with it |
| Terms.LeaderCommitIsIgnored | SRaft/SRaft.cc:238-290 | a follower does the same for any leader commit in a request |
| Terms.FileWrittenExactly | SRaft/SRaft.cc:402-408 | which steps write the file, which then holds term, vote and log of the node, but the old term on a vote reply |
| Terms.LogIsPersisted | SRaft/SRaft.cc:168-175 | in every state of every run log and vote of a running node are those on disk |
| Terms.VotedForIsOwnCampaign | SRaft/SRaft.cc:124-131 | the recorded vote is the node's own name exactly once it has campaigned, through crashes; grants leave it alone |
| Heartbeats.HeartbeatsAreSent | SRaft/SRaft.cc:100-104 | a running leader's due timer puts a heartbeat with its term and commit index in flight to every peer |
| Heartbeats.HeartbeatPutsInStep | SRaft/SRaft.cc:260-271 | when it arrives, however late, at a running node of no higher term, that node follows at exactly the term the leader had and is otherwise unchanged |
| Heartbeats.HeartbeatsAreLeaders | SRaft/SRaft.cc:210-235 | every heartbeat in flight was sent by a leader's due timer |
| LogMatching.LogsAreContiguous | SRaft/SRaft.cc:273-282 | every log in memory, on disk or in flight has indices without gaps, whatever was dropped |
| LogMatching.LogsMatch | SRaft/SRaft.cc:222-233 | logs that share an index and term agree at every lower index both hold, with any number of leaders |
| SoleLeader.SoleLeaderMintsFresh | SRaft/SRaft.cc:168-173 | a sole leader never mints a (term, index) pair twice |
| SoleLeader.LogsAreSlices | SRaft/SRaft.cc:273-288 | without any ordering, every log in memory or on disk is a contiguous slice of the leader's |
| SoleLeader.ReportsAndAppliesWithinLog | SRaft/SRaft.cc:317-344 | no reply reports an index past the leader's end, and applying never reads outside its log |
| SoleLeader.StoreIsFoldOfCommitted | SRaft/SRaft.cc:180-200 | taken and waiting commands together are exactly the non-empty committed ones in order, and the database is the fold over those taken |
| SoleLeader.OnlyTheLeaderApplies | SRaft/SRaft.cc:238-290 | no other node ever commits, applies or executes anything |
| Replication.FollowersHoldPrefixes | SRaft/SRaft.cc:202-236 | followers hold prefixes of the leader's log; match index and next index less one name persisted entries |
| Replication.FollowersNeverShrink | SRaft/SRaft.cc:273-288 | what a follower has persisted stays and is only extended, through crashes too |
| DurableCommit.CommitsAreDurable | SRaft/SRaft.cc:329-344 | at every moment enough nodes for the coded threshold, at least max(2, half the peers), have persisted the leader's log through the commit index |
| DurableCommit.SmallClustersCommitByMajority | SRaft/SRaft.cc:339-344 | in such clusters more than half of the nodes have persisted everything committed |
| MinorityCommit.MinorityCommits | SRaft/SRaft.cc:329-344 | in every cluster of four or more a run under a sole leader exists that commits an entry at most half of the nodes have persisted |
| MinorityCommit.CommitsByMajorityExactly | SRaft/SRaft.cc:339 | over all ordered runs of a cluster under a sole leader, a strict majority has persisted everything committed, if and only if it has at most three nodes |
| DurableCommit.CommitsAreFinal | SRaft/SRaft.cc:318-344 | the commit index never goes back and the committed part of the log never changes |
| CatchUp.RequestCatchesUpExactly | SRaft/SRaft.cc:222-233 | a request brings its follower to the leader's log as of the send, if and only if the next index it was built from was not 0 or the follower still held nothing when it arrived |
| CatchUp.SecondExchangeCatchesUpExactly | SRaft/SRaft.cc:273-287 | after two exchanges the follower holds the leader's log as of the second send, if and only if the leader's next index for it was then not 0, whatever other replies came in |
| CatchUp.UndisturbedExchangeCatchesUpExactly | SRaft/SRaft.cc:311-327 | without another reply before the second send, it is caught up if and only if the leader did not ignore the first reply at next index 0 |
| CatchUp.RefusalThenCaughtUp | SRaft/SRaft.cc:311-316 | after a refused request, and no other reply before the second send, the second exchange brings the follower to the leader's log |
| StuckLeader.TwoExchangesCanFail | SRaft/SRaft.cc:318-323 | a run of three nodes in which the leader ignores a success it had committed, so two exchanges do not catch the follower up |
| StuckLeader.StaleRefusalCanFail | SRaft/SRaft.cc:311-316 | a run of three nodes in which the leader takes a success into account and then a late refusal, so two exchanges do not catch the follower up |
| LoneServer.AcceptedWritesSurvive | SRaft/SRaft.cc:168-175 | every command a lone server ever accepted is on disk in order, whatever crashed |
| LoneServer.WriteReplaysEverything | SRaft/SRaft.cc:204-209 | an accepted write leaves the commands taken and waiting equal to every non-empty command ever accepted |
| LoneServer.DrainedDatabaseIsWholeHistory | SRaft/Skvserver.cc:13-42 | after a write since the restart, a drained channel leaves the database of all accepted commands; before one, the initial database |
| Channels.MyChannel.PushData | SRaft/MyChannel.cc:2-7 | the string joins the end of the queue |
| Channels.MyChannel.PopData | SRaft/MyChannel.cc:9-16 | the first string leaves the queue |
| Commands.ParseTakesThreeWords | SRaft/Skvserver.cc:19-23 | the parse of any string is its first three white-space separated words, a failure when there are fewer |
| Commands.RoundTripExactly | SRaft/Skvserver.cc:100 | writing and parsing a command gives it back if and only if its parts are single words |
| Commands.AnyWhiteSpaceSeparates | SRaft/Skvserver.cc:19-23 | a command of words separated by any of the six white-space characters is read back the same |
| Commands.WordsOfEncode | SRaft/Skvserver.cc:100 | whatever the parts contain, the words of the written command are those of its parts in order |
| Commands.HistoryGivesValues | SRaft/Skvserver.cc:19-41 | executing any texts, malformed ones among them, gives each key the value of its last put and the appends after it, by the words of the texts, and creates no other key |
| Commands.CommandsGiveValues | SRaft/Skvserver.cc:25-32 | likewise for logged commands made of words, by their parts |
| KeyValueServer.Skvserver.Receive | SRaft/Skvserver.cc:16-42 | the receive loop takes commands in order and leaves the database of their execution |
| KeyValueServer.Skvserver.Get | SRaft/Skvserver.cc:64-87 | a value exactly on a leader that has the key, with the right error otherwise |
| KeyValueServer.Skvserver.PutAppend | SRaft/Skvserver.cc:89-104 | only a leader logs the command, as the text of its three parts |
| Wakeup.NoLostWakeup | mymuduo/Eventloop.cc:49-58 | a loop at its poll with functors pending has a positive counter or a producer about to raise it, in every interleaving; quit from another thread is not missed |
| Wakeup.OwnQueuedMeansQueuedOutside | mymuduo/Eventloop.cc:84-95 | the one exception needs a functor queued by the loop's thread outside loop() and not swapped since |
| Wakeup.NoLostWakeupWhenQueuedInside | mymuduo/Eventloop.cc:84-115 | with queueing from handlers, functors and other threads only, no poll blocks on an unannounced functor |
| Wakeup.QueuedBeforeLoopIsNotAnnounced | mymuduo/Eventloop.cc:91-94 | a functor queued by the loop's thread before loop() is announced to nobody at the first poll |
| Wakeup.FirstPollSafeExactly | mymuduo/Eventloop.cc:84-95 | in a run of the loop's own thread alone, the first poll finds every pending functor announced if and only if none was queued outside loop() |
| Wakeup.LoopLeavesExactlyOnQuit | mymuduo/Eventloop.cc:44-61 | at its test the loop leaves exactly when quit was called since it was entered |
| Wakeup.CounterFollowsWrites | mymuduo/Eventloop.cc:97-115 | the eventfd counter is the number of writes since it was last read, up to its maximum |
| Wakeup.FunctorsRunOnceInOrder | mymuduo/Eventloop.cc:132-147 | executed, rest of the batch and pending are together the enqueue order, in every interleaving |
| Wakeup.BatchRunsWhatItTook | mymuduo/Eventloop.cc:134-143 | a batch runs exactly the functors its swap took, in order, whatever is queued meanwhile |
| Wakeup.BatchOnlyShrinks | mymuduo/Eventloop.cc:139-144 | no step but the swap lengthens a batch and running a functor shortens it, so every batch ends |
| EventLoops.EventLoop.QueueInLoop | mymuduo/Eventloop.cc:84-95 | the functor joins the end, and the loop is woken from another thread or during a batch |
| EventLoops.EventLoop.HandleRead | mymuduo/Eventloop.cc:97-105 | the counter is reset, as the protocol's read step |
| EventLoops.EventLoop.Wakeup | mymuduo/Eventloop.cc:107-115 | the counter rises by one, or stays at its maximum, and is positive |
| EventLoops.EventLoop.DoPendingFunctors | mymuduo/Eventloop.cc:132-147 | runs exactly the pending functors, leaves exactly what they queued, and is a trace of the protocol |
| EventLoops.EventLoop.LoopOnce | mymuduo/Eventloop.cc:49-58 | one turn of the loop is a trace of the protocol and runs what was pending and what the handlers queued |
| EventLoops.PerformKeepsInvariants | mymuduo/Eventloop.cc:44-61 | any trace of the object's methods keeps the protocol's invariants |
| Buffers.Buffer.Perform | mymuduo/Buffer.h:41-93 | over any sequence of append, scatter read, compaction and retrieval, bytes taken followed by readable bytes are the old ones followed by those put in |
| ByteQueue.LengthsFollow | mymuduo/Buffer.h:46-56 | what is left after any operations: puts add their length, and taking stops at what there is |
| Buffers.CopyDown | mymuduo/Buffer.h:116 | the forward copy onto an overlapping range before it moves the bytes intact |
| Buffers.Buffer.Retrieve | mymuduo/Buffer.h:46-56 | the first bytes leave the queue, all of them when asked for more |
| Buffers.Buffer.RetrieveAsString | mymuduo/Buffer.h:58-63 | returns and removes the first bytes of the queue |
| Buffers.Buffer.MakeSpace | mymuduo/Buffer.h:107-120 | yields the requested room and keeps the readable bytes, by growing or by an overlapping move |
| Buffers.Buffer.Append | mymuduo/Buffer.h:88-93 | the bytes join the end of the queue |
| Buffers.Buffer.ReadFd | mymuduo/Buffer.cc:6-31 | everything a scatter read delivered, into the window and the extra area, joins the queue in order; an error changes nothing |
| Buffers.Buffer.WriteFd | mymuduo/Buffer.cc:33-41 | a write offers the readable bytes from their start and leaves them in place; a failed one saves its errno |
| Connection.StepKeepsStreamExactly | mymuduo/TcpConnection.cc:66-117 | a step keeps socket bytes followed by waiting bytes equal to the accepted ones, if and only if it is not a faulting send with bytes |
| Connection.StreamInOrderExactly | mymuduo/TcpConnection.cc:46-136 | at every moment of every run socket bytes followed by waiting bytes are the data of all sends between establishing and shutdown or close, if and only if no send with bytes met a fault before |
| Connection.AcceptsExactlyDataSent | mymuduo/TcpConnection.cc:46-60 | a connection is open, and accepts the data of every send, exactly from establishing to shutdown or close, whatever waits and whatever the kernel answers |
| Connection.StateFollowsCalls | mymuduo/TcpConnection.cc:120-136 | it is disconnected exactly once closed, and connecting exactly before it was established or closed |
| Connection.SentIsReported | mymuduo/TcpConnection.cc:185-201 | as many bytes are counted as written as the kernel reported, where a send writes only while nothing waits |
| Connection.RunStaysOrderly | mymuduo/TcpConnection.cc:185-217 | write interest is on exactly while bytes wait, even through faults, and off once disconnected |
| Connection.DrainBeforeShutdown | mymuduo/TcpConnection.cc:120-136 | the write half is shut down at most once, after all data sent, nothing follows, and it does happen once nothing waits |
| Connection.CallbacksExactly | mymuduo/TcpConnection.cc:76-110 | which callbacks any step queues: write complete, then high water, each once, only when set, and no other |
| Connection.HighWaterOnCrossing | mymuduo/TcpConnection.cc:103-110 | the high water callback is queued exactly when the waiting bytes cross the mark from below |
| Connection.WriteCompleteOnDrain | mymuduo/TcpConnection.cc:191-201 | the write complete callback is queued exactly when a step leaves nothing waiting after writing |
| TcpConnections.TcpConnection.Send | mymuduo/TcpConnection.cc:46-60 | a connected object takes the bytes on as the state machine does, any other ignores them |
| TcpConnections.TcpConnection.SendInLoop | mymuduo/TcpConnection.cc:66-117 | direct write, fault, buffering, interest and callbacks for every kernel answer |
| TcpConnections.TcpConnection.HandleWrite | mymuduo/TcpConnection.cc:185-217 | the written bytes leave the buffer, and a drained one ends interest and performs a pending shutdown |
| TcpConnections.TcpConnection.Shutdown | mymuduo/TcpConnection.cc:120-136 | a connected object disconnects, shutting the write half at once only when nothing waits |
| TcpConnections.TcpConnection.HandleRead | mymuduo/TcpConnection.cc:163-181 | bytes join the input, end of stream closes, an error changes nothing |
| EPollMirror.StepKeepsMirror | mymuduo/EPollPoller.cc:27-55 | each enable, disable or remove keeps kernel set, table and channel states in agreement with no refused epoll_ctl |
| EPollMirror.RunMirrors | mymuduo/EPollPoller.cc:27-89 | over any sequence of calls the kernel holds a descriptor with a mask exactly when its channel is added with it, and every call is legal |
| EPollMirror.MaskIsWhatWasAsked | mymuduo/Channel.h:39-43 | in every run a channel's mask is EPOLLIN and EPOLLPRI exactly while reading is wanted and EPOLLOUT exactly while writing is, by the calls alone |
| EPollMirror.KernelHoldsWhatWasAsked | mymuduo/EPollPoller.cc:27-89 | which descriptors the kernel holds, with which mask, and which the table lists, as functions of the calls alone |
| EPollMirror.EmptyMaskIsRare | mymuduo/EPollPoller.cc:31-41 | the kernel comes to hold an empty mask only by updating a channel without interest that was not added |
| EPollPollers.EPollPoller.UpdateChannel | mymuduo/EPollPoller.cc:27-55 | the object's table, kernel set and channel state follow the mirror's step for each of the three states |
| EPollPollers.EPollPoller.RemoveChannel | mymuduo/EPollPoller.cc:78-89 | the channel leaves table and kernel set and is new again |
| EPollPollers.EPollPoller.EnableRead | mymuduo/Channel.h:39 | read interest joins the mask and the poller is updated |
| EPollPollers.EPollPoller.DisableWrite | mymuduo/Channel.h:42 | write interest leaves the mask and the poller is updated |
| EPollPollers.EPollPoller.DisableAll | mymuduo/Channel.h:43 | the mask becomes empty and the poller is updated |

## Left out

- Leader Completeness and safety of commits across leaders: the commit threshold, the announced last term of an empty log and leaders that raise their term without stepping down mean the code does not provide them.
- Election uniqueness as "two nodes in state LEADER with equal current term": a candidate that grants a vote keeps campaigning in a raised term, so the code does not provide it; the campaign term is used instead.
- Snapshots: `InstallSnapshot` is empty, and the two values they would change are constants here.
- Failed calls, and requests that would carry a blank entry, count as lost: their required fields are missing (`SRaft/raft_messages.proto:5-11`).
- SRaftServer.SRaft.DoLog: minting index 2^63 - 1 is excluded, though the C++ still computes that index; it is the addition after it, `LastLogIndex() + 1` on such a log, that is undefined there.
- KeyValueServer.Skvserver.PutAppend: as DoLog, which it calls.
- SRaftServer.SRaft.OnAppendEntriesResponse: the answer of a failed call, whose empty name makes the C++ dereference a null pointer, is excluded.
- SRaftServer.SRaft.FindLog: positions are unbounded, so the 32-bit loop variable of logs longer than 2^31 is not modelled.
- SRaftServer.SRaft.OnRequestVoteResponse: the vote count is unbounded instead of a `uint64_t`.
- Clock readings and random delays are parameters of the SRaft object; in the cluster the timer may fire at any time, and nothing is said about elections ever ending.
- A persisted file is written atomically; corruption of it is not modelled.
- KeyValueServer.Skvserver.Receive: a given number of turns, because the thread's loop has no end of its own.
- EventLoops.EventLoop.LoopOnce: one turn at a time for the same reason; other threads appear in the step machine of `Wakeup.dfy` only, where a turn is cut at every access to shared state.
- `RunInLoop` on the loop's own thread calls its functor directly and touches nothing modelled.
- TcpConnections.TcpConnection.Send: calls from other threads, which pass on a pointer into the caller's string, are not modelled.
- User callbacks, `connectDestroyed`, `tie` and shared-pointer lifetimes: callbacks that are queued appear as values, the others not at all.
- Buffers.Buffer.RetrieveAsString: a length past the array would read outside it in C++ and is excluded; one past the readable bytes is allowed and returns what lies there.
- EPollPoller `Poll` and event dispatch: which events the kernel reports is arbitrary in the step machine.
- `Skvclient`, loggers, timestamps, sockets, addresses, acceptor, threads and the thread pool: I/O or thin wrappers.
