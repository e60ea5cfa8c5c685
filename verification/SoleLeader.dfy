/**
 Runs in which one node only is ever leader and never loses the role, from empty logs, under any loss,
 reordering and redelivery and with crashing followers: every log is a slice of the leader's, no
 (term, index) pair is minted twice, and the leader's store is a fold over its committed commands.
 */
module SoleLeader {
  import opened Common
  import opened MachineInts
  import opened RaftLog
  import opened RaftNode
  import opened Commands
  import opened Cluster

  // ---------- logs ----------

  ghost predicate Dense(logs: seq<LogEntry>) {
    forall i :: 0 <= i < |logs| ==> logs[i].index == i
  }

  /** A contiguous piece of the leader's log. */
  ghost predicate SliceOf(logs: seq<LogEntry>, lead: seq<LogEntry>) {
    && Contiguous(logs)
    && forall i :: 0 <= i < |logs| ==> logs[i].index < |lead| && logs[i] == lead[logs[i].index]
  }

  function DiskLogs(n: Node): seq<LogEntry> {
    if n.disk.None? then [] else n.disk.value.entries
  }

  ghost predicate RequestOfLead(q: AppendRequest, lead: seq<LogEntry>) {
    && SliceOf(q.entries, lead)
    && (q.entries != [] ==>
          && q.entries[0].index == q.prevLogIndex + 1
          && q.prevLogIndex < |lead|
          && (q.prevLogIndex >= 0 ==> q.prevLogTerm == lead[q.prevLogIndex].term))
  }

  /** The commands of a log in order, without the empty ones. */
  function NonEmptyData(logs: seq<LogEntry>): seq<string> {
    if logs == [] then []
    else
      var last := logs[|logs| - 1].data;
      NonEmptyData(logs[..|logs| - 1]) + if last == "" then [] else [last]
  }

  // ---------- the invariant ----------

  ghost predicate FollowerOK(n: Node, lead: seq<LogEntry>) {
    && n.role != Leader
    && SliceOf(n.logs, lead) && SliceOf(DiskLogs(n), lead)
    && n.commitIndex == -1 && n.lastApplied == -1
  }

  ghost predicate LeaderOK(n: Node) {
    && Dense(n.logs) && DiskLogs(n) == n.logs
    && n.lastApplied == n.commitIndex < |n.logs|
    && (n.role != Leader ==> n.logs == [])
    && forall p <- n.peers :: n.peers[p].nextIndex <= |n.logs| && n.peers[p].matchIndex < |n.logs|
  }

  /** What was pushed is the committed commands; what was taken from the channel is in the database. */
  predicate StoreOK(n: Node, s: Store) {
    && s.applied + s.queue == Pushes(n.logs, -1, n.lastApplied)
    && s.db == ExecuteAll(INITIAL_DB, s.applied)
  }

  ghost predicate CallFromLead(r: Rpc, leader: Name, lead: seq<LogEntry>) {
    match r.msg
    case AppendAsk(q, _) => r.from == leader && RequestOfLead(q, lead)
    case AppendAnswer(q, _, reply) => r.from == leader && reply.lastLogIndex < |lead|
    case _ => true
  }

  ghost predicate HostFollows(h: Host, n: Name, leader: Name, lead: seq<LogEntry>) {
    && (if n == leader then LeaderOK(h.node) else FollowerOK(h.node, lead))
    && StoreOK(h.node, h.store)
  }

  ghost predicate UnderLead(c: Cluster, leader: Name) {
    && leader in c.hosts
    && var lead := c.hosts[leader].node.logs;
       && (forall n <- c.hosts :: HostFollows(c.hosts[n], n, leader, lead))
       && (forall r <- c.net :: CallFromLead(r, leader, lead))
       && (forall k <- c.minted :: k.index < |lead|)
  }

  // ---------- lemmas on logs ----------

  lemma SliceBounds(logs: seq<LogEntry>, lead: seq<LogEntry>)
    requires SliceOf(logs, lead)
    ensures LastLogIndex(logs) < |lead| && BaseLogIndex(logs) <= LastLogIndex(logs)
  {
    ContiguousBounds(logs);
    assert logs != [] ==> logs[|logs| - 1].index < |lead|;
  }

  lemma SliceOfLonger(logs: seq<LogEntry>, lead: seq<LogEntry>, lead': seq<LogEntry>)
    requires SliceOf(logs, lead) && lead <= lead'
    ensures SliceOf(logs, lead')
  {
  }

  lemma RequestOfLonger(q: AppendRequest, lead: seq<LogEntry>, lead': seq<LogEntry>)
    requires RequestOfLead(q, lead) && lead <= lead'
    ensures RequestOfLead(q, lead')
  {
    SliceOfLonger(q.entries, lead, lead');
  }

  lemma DenseIsSlice(lead: seq<LogEntry>)
    requires Dense(lead)
    ensures SliceOf(lead, lead) && LastLogIndex(lead) == |lead| - 1
  {
  }

  lemma SpliceIsSlice(logs: seq<LogEntry>, q: AppendRequest, lead: seq<LogEntry>)
    requires Dense(lead) && SliceOf(logs, lead) && RequestOfLead(q, lead) && q.entries != []
    ensures SliceOf(Splice(logs, q.prevLogTerm, q.prevLogIndex, q.entries), lead)
  {
    SpliceSpec(logs, q.prevLogTerm, q.prevLogIndex, q.entries);
    SliceBounds(logs, lead);
  }

  lemma SentIsOfLead(n: Node, peer: Peer)
    requires Dense(n.logs) && peer.nextIndex <= |n.logs| && AppendRequestFor(n, peer, false).Some?
    ensures RequestOfLead(AppendRequestFor(n, peer, false).value, n.logs)
    ensures AppendRequestFor(n, peer, false).value.entries == n.logs[peer.nextIndex..]
  {
    hide GetLogByIndex, EntriesFrom;
    DenseIsSlice(n.logs);
    EntriesFromSpec(n.logs, peer.nextIndex);
    if peer.nextIndex > 0 {
      GetLogByIndexSpec(n.logs, peer.nextIndex - 1);
    }
  }

  lemma {:induction false} PushesSplit(logs: seq<LogEntry>, from: LastIndex, mid: LastIndex, to: LastIndex)
    requires from <= mid <= to
    ensures Pushes(logs, from, to) == Pushes(logs, from, mid) + Pushes(logs, mid, to)
    decreases Distance(mid, to)
  {
    if mid < to {
      PushesSplit(logs, from, mid, to - 1);
    }
  }

  lemma {:induction false} PushesOfLonger(logs: seq<LogEntry>, logs': seq<LogEntry>, from: LastIndex, to: LastIndex)
    requires Dense(logs) && Dense(logs') && logs <= logs' && to < |logs|
    ensures Pushes(logs, from, to) == Pushes(logs', from, to)
    decreases Distance(from, to)
  {
    if from < to {
      PushesOfLonger(logs, logs', from, to - 1);
      assert GetLogByIndex(logs, ToU64(to)) == GetLogByIndex(logs', ToU64(to)) by {
        DenseIsSlice(logs);
        DenseIsSlice(logs');
        GetLogByIndexSpec(logs, to);
        GetLogByIndexSpec(logs', to);
      }
    }
  }

  lemma {:induction false} PushesAreData(logs: seq<LogEntry>, to: LastIndex)
    requires Dense(logs) && to < |logs|
    ensures Pushes(logs, -1, to) == NonEmptyData(logs[..to + 1])
  {
    if to >= 0 {
      PushesAreData(logs, to - 1);
      DenseIsSlice(logs);
      GetLogByIndexSpec(logs, to);
      assert logs[..to + 1][..to] == logs[..to];
    }
  }

  // ---------- handlers ----------

  lemma FollowerAppends(h: Host, a: Action, lead: seq<LogEntry>)
    requires Ready(h, a) && Dense(lead) && FollowerOK(h.node, lead) && a.AppendArrives?
    requires RequestOfLead(a.r.msg.append, lead)
    ensures FollowerOK(NodeAfter(h, a), lead) && Calls(h, a) == map[]
    ensures Answer(h, a).Some? && Answer(h, a).value.AppendAnswer? && Answer(h, a).value.reply.lastLogIndex < |lead|
  {
    hide SliceOf, Splice;
    SliceBounds(h.node.logs, lead);
    if a.r.msg.append.entries != [] {
      SpliceIsSlice(h.node.logs, a.r.msg.append, lead);
      var q := a.r.msg.append;
      SliceBounds(Splice(h.node.logs, q.prevLogTerm, q.prevLogIndex, q.entries), lead);
    }
  }

  lemma FollowerOthers(h: Host, a: Action, lead: seq<LogEntry>)
    requires Ready(h, a) && FollowerOK(h.node, lead) && !a.AppendArrives? && NodeAfter(h, a).role != Leader
    ensures FollowerOK(NodeAfter(h, a), lead)
    ensures forall p <- Calls(h, a) :: !Calls(h, a)[p].AppendAsk?
  {
    hide SliceOf, Splice, AppendCalls, EntriesFrom, Pushes, Matching;
    if a.Crash? {
      EmptyIsSlice(lead);
    }
  }

  /** A node that is not leader keeps slices of the lead, never commits, and reports no index beyond it. */
  lemma FollowerHandlers(h: Host, a: Action, lead: seq<LogEntry>)
    requires Ready(h, a) && Dense(lead) && FollowerOK(h.node, lead)
    requires a.AppendArrives? ==> RequestOfLead(a.r.msg.append, lead)
    requires NodeAfter(h, a).role != Leader
    ensures FollowerOK(NodeAfter(h, a), lead)
    ensures a.AppendArrives? ==>
              && Answer(h, a).Some? && Answer(h, a).value.AppendAnswer?
              && Answer(h, a).value.reply.lastLogIndex < |lead|
    ensures forall p <- Calls(h, a) :: !Calls(h, a)[p].AppendAsk?
  {
    hide FollowerOK, NodeAfter, Answer, Calls, RequestOfLead, Dense;
    if a.AppendArrives? {
      FollowerAppends(h, a, lead);
    } else {
      FollowerOthers(h, a, lead);
    }
  }

  /** It pushes nothing, so its store changes only by a receive or a crash. */
  lemma FollowerStore(h: Host, a: Action, lead: seq<LogEntry>)
    requires Ready(h, a) && FollowerOK(h.node, lead) && StoreOK(h.node, h.store) && !a.Receive?
    requires FollowerOK(NodeAfter(h, a), lead)
    ensures StoreOK(NodeAfter(h, a), StoreAfter(h, a))
  {
    hide SliceOf, ExecuteAll, OnAppendRequest, OnVoteRequest, OnTimer;
    NothingPushedYet();
    assert h.store.queue + [] == h.store.queue;
  }

  lemma EmptyIsSlice(lead: seq<LogEntry>)
    ensures SliceOf([], lead)
  {
  }

  /** Committing further pushes exactly the commands in between. */
  lemma CommitKeepsStore(logs: seq<LogEntry>, logs': seq<LogEntry>, s: Store, from: LastIndex, to: LastIndex)
    requires Dense(logs) && Dense(logs') && logs <= logs' && from <= to && from < |logs|
    requires s.applied + s.queue == Pushes(logs, -1, from)
    ensures s.applied + (s.queue + Pushes(logs', from, to)) == Pushes(logs', -1, to)
  {
    PushesOfLonger(logs, logs', -1, from);
    PushesSplit(logs', -1, from, to);
    assert s.applied + (s.queue + Pushes(logs', from, to)) == (s.applied + s.queue) + Pushes(logs', from, to);
  }

  lemma LeaderLogs(h: Host, cmd: string)
    requires CanMint(h.node) && LeaderOK(h.node) && StoreOK(h.node, h.store) && h.node.role == Leader
    ensures var e := DoLog(h.node, cmd);
            && LeaderOK(e.node) && h.node.logs <= e.node.logs
            && StoreOK(e.node, h.store.(queue := h.store.queue + e.pushed))
            && (forall p <- e.calls :: e.calls[p].AppendAsk? && RequestOfLead(e.calls[p].append, e.node.logs))
  {
    var n, e := h.node, DoLog(h.node, cmd);
    if Accepts(n) {
      DenseIsSlice(n.logs);
      var logs := n.logs + [Minted(n, cmd)];
      assert Dense(logs);
      DenseIsSlice(logs);
      CommitKeepsStore(n.logs, logs, h.store, n.lastApplied, e.node.lastApplied);
      var d := Dump(n.(logs := logs));
      forall p <- e.calls ensures e.calls[p].AppendAsk? && RequestOfLead(e.calls[p].append, logs) {
        SentIsOfLead(d, d.peers[p]);
      }
    }
  }

  lemma ReplyKeepsLeaderOK(n: Node, reply: AppendResponse, isHeartbeat: bool)
    requires LeaderOK(n) && reply.name in n.peers && reply.lastLogIndex < |n.logs|
    requires n.role == Leader ==> OnAppendReply(n, reply, isHeartbeat).node.role == Leader
    ensures var e := OnAppendReply(n, reply, isHeartbeat);
            && LeaderOK(e.node) && n.logs == e.node.logs
            && n.lastApplied <= e.node.lastApplied
            && e.pushed == Pushes(n.logs, n.lastApplied, e.node.lastApplied)
  {
    hide Matching, Pushes;
    NothingToPush(n.logs, n.lastApplied, n.lastApplied);
  }

  lemma LeaderHearsReply(h: Host, reply: AppendResponse, isHeartbeat: bool)
    requires LeaderOK(h.node) && StoreOK(h.node, h.store) && reply.name in h.node.peers
    requires reply.lastLogIndex < |h.node.logs|
    requires h.node.role == Leader ==> OnAppendReply(h.node, reply, isHeartbeat).node.role == Leader
    ensures var e := OnAppendReply(h.node, reply, isHeartbeat);
            && LeaderOK(e.node) && h.node.logs == e.node.logs
            && StoreOK(e.node, h.store.(queue := h.store.queue + e.pushed))
  {
    hide OnAppendReply, ExecuteAll;
    var n, e := h.node, OnAppendReply(h.node, reply, isHeartbeat);
    ReplyKeepsLeaderOK(n, reply, isHeartbeat);
    CommitKeepsStore(n.logs, n.logs, h.store, n.lastApplied, e.node.lastApplied);
  }

  /** The sole leader's log only grows, and what it sends is a tail of it. */
  lemma LeaderHandlers(h: Host, a: Action)
    requires Ready(h, a) && LeaderOK(h.node) && StoreOK(h.node, h.store) && !a.AppendArrives?
    requires a.AppendReplyArrives? ==> a.r.msg.reply.lastLogIndex < |h.node.logs|
    requires h.node.role == Leader ==> NodeAfter(h, a).role == Leader
    ensures LeaderOK(NodeAfter(h, a)) && h.node.logs <= NodeAfter(h, a).logs
    ensures !a.Receive? ==> StoreOK(NodeAfter(h, a), StoreAfter(h, a))
    ensures forall p <- Calls(h, a) :: Calls(h, a)[p].AppendAsk? ==>
            RequestOfLead(Calls(h, a)[p].append, NodeAfter(h, a).logs)
  {
    hide RequestOfLead, Pushes, ExecuteAll, OnAppendReply, DoLog, OnAppendRequest, LeaderOK, OnTimer, OnVoteRequest,
         OnVoteReply;
    match a
    case Client(_, cmd) =>
      if h.node.role == Leader {
        LeaderLogs(h, cmd);
      } else {
        IdleClient(h, cmd);
      }
    case AppendReplyArrives(r) => LeaderHearsReply(h, r.msg.reply, r.msg.isHeartbeat);
    case Timer(_, _, _, _) =>
      HeartbeatsCarryNothing(h, a, NodeAfter(h, a).logs);
      RestOfLeader(h, a);
    case Crash(_) =>
      NothingPushedYet();
      RestOfLeader(h, a);
    case _ => RestOfLeader(h, a);
  }

  /** The remaining steps of a leader, or of one not yet elected, leave its log as it is. */
  lemma RestOfLeader(h: Host, a: Action)
    requires Ready(h, a) && LeaderOK(h.node) && !a.Client? && !a.AppendReplyArrives? && !a.AppendArrives?
    requires h.node.role == Leader ==> NodeAfter(h, a).role == Leader
    ensures LeaderOK(NodeAfter(h, a)) && NodeAfter(h, a).logs == h.node.logs
    ensures NodeAfter(h, a).lastApplied == h.node.lastApplied
  {
    hide OnAppendReply, OnAppendRequest, DoLog, AppendCalls, Pushes;
  }

  lemma IdleClient(h: Host, cmd: string)
    requires CanMint(h.node) && h.node.role != Leader
    ensures DoLog(h.node, cmd) == Quiet(h.node)
    ensures h.store.queue + [] == h.store.queue
  {
  }

  lemma HeartbeatsCarryNothing(h: Host, a: Action, lead: seq<LogEntry>)
    requires Ready(h, a) && a.Timer?
    ensures forall p <- Calls(h, a) :: Calls(h, a)[p].AppendAsk? ==> RequestOfLead(Calls(h, a)[p].append, lead)
  {
    hide DoLog, OnAppendReply;
  }

  lemma NothingPushedYet()
    ensures Pushes([], -1, -1) == [] && ExecuteAll(INITIAL_DB, []) == INITIAL_DB
  {
  }

  /** Taking one command from the channel executes it after those taken before. */
  lemma ReceiveKeepsStore(n: Node, s: Store)
    requires StoreOK(n, s) && s.queue != []
    ensures StoreOK(n, Store(s.queue[1..], s.applied + [s.queue[0]], ExecuteText(s.db, s.queue[0])))
  {
    ExecuteOneMore(INITIAL_DB, s.applied, s.queue[0]);
    assert s.applied + [s.queue[0]] + s.queue[1..] == s.applied + s.queue;
  }

  // ---------- runs ----------

  lemma HostStaysUnderLead(c: Cluster, a: Action, leader: Name)
    requires WellFormed(c) && UnderLead(c, leader) && Enabled(c, a) && KeepsSoleLeader(c, Next(c, a), leader)
    ensures c.hosts[leader].node.logs <= Next(c, a).hosts[leader].node.logs
    ensures var h := c.hosts[Subject(a)];
            && HostFollows(HostAfter(h, c.clock, a), Subject(a), leader, Next(c, a).hosts[leader].node.logs)
            && (forall p <- Calls(h, a) :: Calls(h, a)[p].AppendAsk? ==>
                  Subject(a) == leader && RequestOfLead(Calls(h, a)[p].append, NodeAfter(h, a).logs))
  {
    hide Next, HostAfter, NodeAfter, Calls, Added, MintAfter, WellFormed, StoreAfter, LeaderOK, FollowerOK,
         RequestOfLead, StoreOK;
    var h, n := c.hosts[Subject(a)], Subject(a);
    NextParts(c, a);
    SubjectIsOK(c, a);
    var lead := c.hosts[leader].node.logs;
    assert HostFollows(h, n, leader, lead) && HostFollows(c.hosts[leader], leader, leader, lead);
    assert IsDelivery(a) ==> CallFromLead(a.r, leader, lead);
    if n == leader {
      LeaderHandlers(h, a);
    } else {
      LeaderIsDense(c.hosts[leader].node);
      assert n in Next(c, a).hosts && Next(c, a).hosts[n].node == NodeAfter(h, a);
      FollowerHandlers(h, a, lead);
    }
    if a.Receive? {
      ReceiveStep(h, a);
    } else if n != leader {
      FollowerStore(h, a, lead);
    }
  }

  lemma LeaderIsDense(n: Node)
    requires LeaderOK(n)
    ensures Dense(n.logs)
  {
  }

  lemma ReceiveStep(h: Host, a: Action)
    requires Ready(h, a) && a.Receive? && StoreOK(h.node, h.store)
    ensures StoreOK(NodeAfter(h, a), StoreAfter(h, a))
  {
    ReceiveKeepsStore(h.node, h.store);
  }

  lemma CallsStayFromLead(c: Cluster, a: Action, leader: Name, r: Rpc)
    requires WellFormed(c) && UnderLead(c, leader) && Enabled(c, a) && KeepsSoleLeader(c, Next(c, a), leader)
    requires r in Next(c, a).net
    ensures CallFromLead(r, leader, Next(c, a).hosts[leader].node.logs)
  {
    hide Next, HostAfter, NodeAfter, Calls, MintAfter, WellFormed, StoreAfter, LeaderOK, FollowerOK, RequestOfLead,
         StoreOK, HostFollows;
    NextParts(c, a);
    HostStaysUnderLead(c, a, leader);
    var lead, lead' := c.hosts[leader].node.logs, Next(c, a).hosts[leader].node.logs;
    if r in c.net {
      assert CallFromLead(r, leader, lead);
      if r.msg.AppendAsk? {
        RequestOfLonger(r.msg.append, lead, lead');
      }
    } else {
      AddedSpec(c.hosts[Subject(a)], c.clock, a, r);
      if a.AppendArrives? {
        AnswerStaysWithinLead(c, a, leader);
      }
    }
  }

  lemma AnswerStaysWithinLead(c: Cluster, a: Action, leader: Name)
    requires WellFormed(c) && UnderLead(c, leader) && Enabled(c, a) && KeepsSoleLeader(c, Next(c, a), leader)
    requires a.AppendArrives?
    ensures Answer(c.hosts[Subject(a)], a).Some?
    ensures CallFromLead(a.r.(msg := Answer(c.hosts[Subject(a)], a).value), leader, c.hosts[leader].node.logs)
    ensures Calls(c.hosts[Subject(a)], a) == map[]
  {
    hide Next, HostAfter, NodeAfter, MintAfter, WellFormed, StoreAfter, LeaderOK, FollowerOK, RequestOfLead, StoreOK;
    var h, n, lead := c.hosts[Subject(a)], Subject(a), c.hosts[leader].node.logs;
    NextParts(c, a);
    SubjectIsOK(c, a);
    assert HostFollows(h, n, leader, lead) && HostFollows(c.hosts[leader], leader, leader, lead);
    assert CallFromLead(a.r, leader, lead);
    LeaderIsDense(c.hosts[leader].node);
    assert n in Next(c, a).hosts && Next(c, a).hosts[n].node == NodeAfter(h, a);
    FollowerHandlers(h, a, lead);
  }

  lemma MintsStayBelowEnd(c: Cluster, a: Action, leader: Name)
    requires WellFormed(c) && UnderLead(c, leader) && Enabled(c, a) && KeepsSoleLeader(c, Next(c, a), leader)
    ensures MintIsFresh(c, a)
    ensures forall k <- Next(c, a).minted :: k.index < |Next(c, a).hosts[leader].node.logs|
  {
    hide Next, HostAfter, Calls, WellFormed, StoreAfter, FollowerOK, RequestOfLead, StoreOK;
    var h, lead := c.hosts[Subject(a)], c.hosts[leader].node.logs;
    NextParts(c, a);
    HostStaysUnderLead(c, a, leader);
    assert HostFollows(h, Subject(a), leader, lead);
    if Mints(h, a) {
      NotLeadingElsewhere(h.node, Subject(a), leader, lead, h);
      DenseIsSlice(lead);
      assert NodeAfter(h, a).logs == lead + [Minted(h.node, a.cmd)];
    }
  }

  lemma NotLeadingElsewhere(n: Node, name: Name, leader: Name, lead: seq<LogEntry>, h: Host)
    requires HostFollows(h, name, leader, lead) && n == h.node && n.role == Leader
    ensures name == leader
  {
  }

  lemma StepKeepsUnderLead(c: Cluster, a: Action, leader: Name)
    requires WellFormed(c) && UnderLead(c, leader) && Enabled(c, a) && KeepsSoleLeader(c, Next(c, a), leader)
    ensures UnderLead(Next(c, a), leader)
    ensures c.hosts[leader].node.logs <= Next(c, a).hosts[leader].node.logs
  {
    hide Next, HostAfter, NodeAfter, Calls, MintAfter, WellFormed, StoreAfter, HostFollows, CallFromLead;
    NextParts(c, a);
    HostStaysUnderLead(c, a, leader);
    MintsStayBelowEnd(c, a, leader);
    var c' := Next(c, a);
    forall n <- c'.hosts ensures HostFollows(c'.hosts[n], n, leader, c'.hosts[leader].node.logs) {
      if n != Subject(a) {
        assert HostFollows(c.hosts[n], n, leader, c.hosts[leader].node.logs);
        FollowsLonger(c.hosts[n], n, leader, c.hosts[leader].node.logs, c'.hosts[leader].node.logs);
      }
    }
    forall r <- c'.net ensures CallFromLead(r, leader, c'.hosts[leader].node.logs) {
      CallsStayFromLead(c, a, leader, r);
    }
  }

  lemma FollowsLonger(h: Host, n: Name, leader: Name, lead: seq<LogEntry>, lead': seq<LogEntry>)
    requires HostFollows(h, n, leader, lead) && lead <= lead'
    ensures HostFollows(h, n, leader, lead')
  {
    hide SliceOf, StoreOK, LeaderOK;
    if n != leader {
      SliceOfLonger(h.node.logs, lead, lead');
      SliceOfLonger(DiskLogs(h.node), lead, lead');
    }
  }

  lemma InitIsUnderLead(c: Cluster, leader: Name)
    requires Init(c) && leader in c.hosts
    ensures UnderLead(c, leader)
  {
    NothingPushedYet();
    forall n <- c.hosts ensures HostFollows(c.hosts[n], n, leader, []) {
      assert c.hosts[n] == FreshHost(n, c.hosts.Keys);
    }
  }

  lemma RunStep(cs: seq<Cluster>, acts: seq<Action>, leader: Name, i: nat)
    requires IsRun(cs, acts) && HasSoleLeader(cs, acts, leader) && i < |acts|
    ensures Enabled(cs[i], acts[i]) && cs[i + 1] == Next(cs[i], acts[i]) &&
            KeepsSoleLeader(cs[i], Next(cs[i], acts[i]), leader)
  {
    hide Next, KeepsSoleLeader, Enabled;
    assert KeepsSoleLeader(cs[i], cs[i + 1], leader);
  }

  lemma {:induction false} RunKeepsUnderLead(cs: seq<Cluster>, acts: seq<Action>, leader: Name, k: nat)
    requires IsRun(cs, acts) && HasSoleLeader(cs, acts, leader) && leader in cs[0].hosts && k < |cs|
    ensures WellFormed(cs[k]) && UnderLead(cs[k], leader) && cs[k].hosts.Keys == cs[0].hosts.Keys
  {
    hide WellFormed, UnderLead, KeepsSoleLeader;
    if k == 0 {
      InitIsWellFormed(cs[0]);
      InitIsUnderLead(cs[0], leader);
    } else {
      RunKeepsUnderLead(cs, acts, leader, k - 1);
      RunStep(cs, acts, leader, k - 1);
      StaysWellFormed(cs[k - 1], acts[k - 1]);
      StepKeepsUnderLead(cs[k - 1], acts[k - 1], leader);
    }
  }

  // ---------- main results ----------

  /** A sole leader never mints a (term, index) pair twice, so Log Matching applies to its runs. */
  lemma SoleLeaderMintsFresh(cs: seq<Cluster>, acts: seq<Action>, leader: Name)
    requires IsRun(cs, acts) && HasSoleLeader(cs, acts, leader) && leader in cs[0].hosts
    ensures MintsAreFresh(cs, acts)
  {
    hide WellFormed, UnderLead, KeepsSoleLeader, MintIsFresh, HasSoleLeader, Next, Enabled;
    forall i | 0 <= i < |acts| ensures MintIsFresh(cs[i], acts[i]) {
      RunKeepsUnderLead(cs, acts, leader, i);
      RunStep(cs, acts, leader, i);
      MintsStayBelowEnd(cs[i], acts[i], leader);
    }
  }

  /** Without any ordering, every log in memory or on disk is a slice of the leader's log. */
  lemma LogsAreSlices(cs: seq<Cluster>, acts: seq<Action>, leader: Name, k: nat, n: Name)
    requires IsRun(cs, acts) && HasSoleLeader(cs, acts, leader) && leader in cs[0].hosts && k < |cs| && n in cs[0].hosts
    ensures n in cs[k].hosts && leader in cs[k].hosts
    ensures var lead := cs[k].hosts[leader].node.logs;
            Dense(lead) && SliceOf(cs[k].hosts[n].node.logs, lead) && SliceOf(DiskLogs(cs[k].hosts[n].node), lead)
  {
    RunKeepsUnderLead(cs, acts, leader, k);
    assert HostFollows(cs[k].hosts[n], n, leader, cs[k].hosts[leader].node.logs);
    assert HostFollows(cs[k].hosts[leader], leader, leader, cs[k].hosts[leader].node.logs);
    DenseIsSlice(cs[k].hosts[leader].node.logs);
  }

  /** No reply on its way reports an index past the leader's end, and applying never reads outside its log. */
  lemma ReportsAndAppliesWithinLog(cs: seq<Cluster>, acts: seq<Action>, leader: Name, k: nat)
    requires IsRun(cs, acts) && HasSoleLeader(cs, acts, leader) && leader in cs[0].hosts && k < |cs|
    ensures leader in cs[k].hosts
    ensures var l := cs[k].hosts[leader].node;
            && (forall r <- cs[k].net :: r.msg.AppendAnswer? ==> r.msg.reply.lastLogIndex < |l.logs|)
            && l.lastApplied == l.commitIndex < |l.logs|
            && (forall i: NextIndex :: i <= l.commitIndex ==> GetLogByIndex(l.logs, i) == Some(l.logs[i]))
  {
    hide WellFormed, KeepsSoleLeader, IsRun, HasSoleLeader;
    RunKeepsUnderLead(cs, acts, leader, k);
    var l := cs[k].hosts[leader].node;
    assert HostFollows(cs[k].hosts[leader], leader, leader, l.logs);
    forall r <- cs[k].net | r.msg.AppendAnswer? ensures r.msg.reply.lastLogIndex < |l.logs| {
      assert CallFromLead(r, leader, l.logs);
    }
    CommittedIsReadable(l);
  }

  lemma CommittedIsReadable(l: Node)
    requires LeaderOK(l)
    ensures forall i: NextIndex :: i <= l.commitIndex ==> GetLogByIndex(l.logs, i) == Some(l.logs[i])
  {
    DenseIsSlice(l.logs);
    forall i: NextIndex | i <= l.commitIndex ensures GetLogByIndex(l.logs, i) == Some(l.logs[i]) {
      GetLogByIndexSpec(l.logs, i);
    }
  }

  /**
   The leader's store: what it took from the channel and what waits there are together exactly the
   non-empty committed commands in log order, and the database is the fold over those taken.
   */
  lemma StoreIsFoldOfCommitted(cs: seq<Cluster>, acts: seq<Action>, leader: Name, k: nat)
    requires IsRun(cs, acts) && HasSoleLeader(cs, acts, leader) && leader in cs[0].hosts && k < |cs|
    ensures leader in cs[k].hosts
    ensures var l, s := cs[k].hosts[leader].node, cs[k].hosts[leader].store;
            && l.commitIndex < |l.logs|
            && s.applied + s.queue == NonEmptyData(l.logs[..l.commitIndex + 1])
            && s.applied <= NonEmptyData(l.logs[..l.commitIndex + 1])
            && s.db == ExecuteAll(INITIAL_DB, s.applied)
  {
    hide WellFormed, KeepsSoleLeader, IsRun, HasSoleLeader;
    RunKeepsUnderLead(cs, acts, leader, k);
    var l := cs[k].hosts[leader].node;
    assert HostFollows(cs[k].hosts[leader], leader, leader, l.logs);
    PushesAreData(l.logs, l.commitIndex);
  }

  /** No other node ever commits, applies or executes anything. */
  lemma OnlyTheLeaderApplies(cs: seq<Cluster>, acts: seq<Action>, leader: Name, k: nat, n: Name)
    requires IsRun(cs, acts) && HasSoleLeader(cs, acts, leader) && leader in cs[0].hosts && k < |cs|
    requires n in cs[0].hosts && n != leader
    ensures n in cs[k].hosts && cs[k].hosts[n].node.commitIndex == -1 && cs[k].hosts[n].node.lastApplied == -1
    ensures cs[k].hosts[n].store == FRESH_STORE
  {
    hide WellFormed, KeepsSoleLeader, IsRun, HasSoleLeader;
    RunKeepsUnderLead(cs, acts, leader, k);
    assert HostFollows(cs[k].hosts[n], n, leader, cs[k].hosts[leader].node.logs);
    var s := cs[k].hosts[n].store;
    assert s.applied + s.queue == [];
    assert |s.applied| + |s.queue| == 0;
  }
}
