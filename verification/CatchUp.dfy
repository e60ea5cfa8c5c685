/**
 How a follower catches up with a sole leader, requests arriving in order and replies in any order: a
 request brings it to the leader's log as of the send, except when it starts at index 0 and the follower
 already holds something.
 */
module CatchUp {
  import opened RaftLog
  import opened RaftNode
  import opened Cluster
  import opened SoleLeader
  import opened Replication

  /** The leader processes no replication reply from the follower in the step. */
  predicate NoReplyFrom(a: Action, f: Name) {
    a.AppendReplyArrives? ==> a.r.msg.AppendAnswer? && (a.r.msg.reply.name != f || a.r.msg.isHeartbeat)
  }

  /** The follower takes part: it runs, and its term does not exceed the request's. */
  predicate TakesPart(n: Node, q: AppendRequest) {
    n.running && n.currentTerm <= q.term
  }

  /** The leader ignores a success it already counted as committed, and keeps sending from index 0. */
  predicate Stuck(l: Node, f: Name, reply: AppendResponse)
    requires f in l.peers
  {
    reply.success && reply.lastLogIndex <= l.commitIndex && l.peers[f].nextIndex == 0
  }

  /** The cluster invariants of an ordered run, with the leader in its role. */
  ghost predicate Leading(c: Cluster, leader: Name, f: Name) {
    && WellFormed(c) && UnderLead(c, leader) && Replicated(c, leader)
    && leader in c.hosts && f in c.hosts && f != leader && f in c.hosts[leader].node.peers
    && c.hosts[leader].node.role == Leader
  }

  ghost predicate StepsTo(c: Cluster, a: Action, leader: Name) {
    Enabled(c, a) && KeepsSoleLeader(c, Next(c, a), leader) && ArrivesInOrder(c, a)
  }

  lemma LeadingStays(c: Cluster, a: Action, leader: Name, f: Name)
    requires Leading(c, leader, f) && StepsTo(c, a, leader)
    ensures Leading(Next(c, a), leader, f)
    ensures c.hosts[leader].node.logs <= Next(c, a).hosts[leader].node.logs
  {
    hide WellFormed, UnderLead, Replicated, Enabled, Next, ArrivesInOrder;
    StaysWellFormed(c, a);
    StepKeepsUnderLead(c, a, leader);
    StepKeepsReplicated(c, a, leader);
    ReplicatedPeer(Next(c, a), leader, f);
  }

  lemma ReplicatedPeer(c: Cluster, leader: Name, f: Name)
    requires Replicated(c, leader) && f in c.hosts && f != leader
    ensures FollowerInStep(c, leader, f)
  {
  }

  // ---------- the four steps of two exchanges ----------

  /** A request with entries: the follower ends at what the leader's log was, unless it rejects. */
  lemma RequestOutcome(c: Cluster, a: Action, leader: Name, f: Name)
    requires Leading(c, leader, f) && StepsTo(c, a, leader)
    requires a.AppendArrives? && a.r.to == f && a.r.msg.append.entries != [] &&
             TakesPart(c.hosts[f].node, a.r.msg.append)
    ensures f in Next(c, a).hosts
    ensures var held, q := DiskLogs(c.hosts[f].node), a.r.msg.append;
            var held' := DiskLogs(Next(c, a).hosts[f].node);
            var reply := OnAppendRequest(c.hosts[f].node, q).1;
            && |held| < End(q) <= |c.hosts[leader].node.logs|
            && held' == (if Rejected(held, q) then held else c.hosts[leader].node.logs[..End(q)])
            && held' != []
            && reply.success == !Rejected(held, q)
            && reply.lastLogIndex == |held'| - 1
  {
    hide WellFormed, UnderLead, Next, FollowerOK, LeaderOK, StoreOK, RequestOfLead, HostAfter, Splice;
    var lead, held, q := c.hosts[leader].node.logs, DiskLogs(c.hosts[f].node), a.r.msg.append;
    NextParts(c, a);
    SubjectIsOK(c, a);
    ReplicatedPeer(c, leader, f);
    LeadFacts(c, leader, a.r);
    assert CallFits(a.r, held, c.hosts[f].arrived);
    FittingRequest(held, q, lead);
    PrefixIsDense(held, lead);
    DenseIsSlice(held);
    PrefixIsDense(lead[..End(q)], lead);
    DenseIsSlice(lead[..End(q)]);
  }

  lemma LeadFacts(c: Cluster, leader: Name, r: Rpc)
    requires UnderLead(c, leader) && r in c.net
    ensures Dense(c.hosts[leader].node.logs) && LeaderOK(c.hosts[leader].node)
    ensures r.msg.AppendAsk? ==> RequestOfLead(r.msg.append, c.hosts[leader].node.logs)
  {
    assert HostFollows(c.hosts[leader], leader, leader, c.hosts[leader].node.logs);
    assert CallFromLead(r, leader, c.hosts[leader].node.logs);
  }

  /** The reply moves the next index, unless it is a success the leader already counted as committed. */
  lemma ReplyOutcome(l: Node, reply: AppendResponse)
    requires reply.name in l.peers && l.role == Leader && OnAppendReply(l, reply, false).node.role == Leader
    ensures var l' := OnAppendReply(l, reply, false).node;
            && reply.name in l'.peers
            && l'.peers[reply.name].nextIndex ==
               if reply.success && reply.lastLogIndex <= l.commitIndex then l.peers[reply.name].nextIndex
               else reply.lastLogIndex + 1
  {
  }

  /** The next request starts at the next index and ends at the leader's new end. */
  lemma SendOutcome(l: Node, cmd: string, f: Name)
    requires CanMint(l) && Accepts(l) && f in l.peers && Dense(l.logs) && l.peers[f].nextIndex <= |l.logs|
    ensures var e := DoLog(l, cmd);
            && f in e.calls && e.calls[f].AppendAsk? && !e.calls[f].isHeartbeat
            && e.calls[f].append.entries != []
            && e.calls[f].append.prevLogIndex == l.peers[f].nextIndex - 1
            && End(e.calls[f].append) == |e.node.logs| == |l.logs| + 1
            && Dense(e.node.logs)
  {
    DenseIsSlice(l.logs);
    var d := Dump(l.(logs := l.logs + [Minted(l, cmd)]));
    assert Dense(d.logs);
    DenseIsSlice(d.logs);
    EntriesFromSpec(d.logs, d.peers[f].nextIndex);
  }

  lemma PeerStays(c: Cluster, a: Action, leader: Name, f: Name)
    requires Leading(c, leader, f) && StepsTo(c, a, leader) && NoReplyFrom(a, f)
    ensures leader in Next(c, a).hosts && f in Next(c, a).hosts[leader].node.peers
    ensures Next(c, a).hosts[leader].node.peers[f] == c.hosts[leader].node.peers[f]
  {
    hide WellFormed, UnderLead, Replicated, Next, HostAfter, NodeAfter, DiskLogs;
    NextParts(c, a);
    if Subject(a) == leader {
      assert Next(c, a).hosts[leader].node.role == Leader;
      PeerOfLeaderStays(c.hosts[leader], a, f);
    }
  }

  lemma PeerOfLeaderStays(h: Host, a: Action, f: Name)
    requires Ready(h, a) && NoReplyFrom(a, f) && f in h.node.peers
    requires h.node.role == Leader && NodeAfter(h, a).role == Leader
    ensures f in NodeAfter(h, a).peers && NodeAfter(h, a).peers[f] == h.node.peers[f]
  {
    hide AppendCalls, Pushes, Splice, Matching;
  }

  // ---------- runs ----------

  lemma RunIsLeading(cs: seq<Cluster>, acts: seq<Action>, leader: Name, f: Name, k: nat)
    requires OrderedRun(cs, acts, leader) && k < |cs| && f in cs[0].hosts && f != leader
    requires leader in cs[k].hosts && cs[k].hosts[leader].node.role == Leader
    ensures Leading(cs[k], leader, f)
  {
    hide WellFormed, UnderLead, Replicated, IsRun;
    RunKeepsReplicated(cs, acts, leader, k);
    ReplicatedPeer(cs[k], leader, f);
  }

  lemma RunStepsTo(cs: seq<Cluster>, acts: seq<Action>, leader: Name, k: nat)
    requires OrderedRun(cs, acts, leader) && k < |acts|
    ensures StepsTo(cs[k], acts[k], leader) && cs[k + 1] == Next(cs[k], acts[k])
  {
    hide Next, Enabled, KeepsSoleLeader, ArrivesInOrder;
    RunStep(cs, acts, leader, k);
  }

  /** The leader's indices for the follower stay over a stretch in which it processes no reply from it. */
  lemma {:induction false} PeerStretch(cs: seq<Cluster>, acts: seq<Action>, leader: Name, f: Name, i: nat, j: nat)
    requires OrderedRun(cs, acts, leader) && i <= j < |cs| && Leading(cs[i], leader, f)
    requires forall k :: i <= k < j ==> NoReplyFrom(acts[k], f)
    ensures Leading(cs[j], leader, f)
    ensures cs[j].hosts[leader].node.peers[f] == cs[i].hosts[leader].node.peers[f]
    decreases j - i
  {
    hide Next, WellFormed, UnderLead, Replicated, StepsTo, NoReplyFrom;
    if i < j {
      PeerStretch(cs, acts, leader, f, i, j - 1);
      RunStepsTo(cs, acts, leader, j - 1);
      PeerStays(cs[j - 1], acts[j - 1], leader, f);
      LeadingStays(cs[j - 1], acts[j - 1], leader, f);
    }
  }

  lemma ReplyStep(c: Cluster, a: Action, leader: Name, f: Name)
    requires Leading(c, leader, f) && StepsTo(c, a, leader)
    requires a.AppendReplyArrives? && a.r.msg.AppendAnswer? && a.r.to == f && !a.r.msg.isHeartbeat
    ensures f in Next(c, a).hosts && DiskLogs(Next(c, a).hosts[f].node) == DiskLogs(c.hosts[f].node)
    ensures leader in Next(c, a).hosts && f in Next(c, a).hosts[leader].node.peers
    ensures a.r.msg.reply.name == f
    ensures var l, reply := c.hosts[leader].node, a.r.msg.reply;
            Next(c, a).hosts[leader].node.peers[f].nextIndex ==
            if reply.success && reply.lastLogIndex <= l.commitIndex then l.peers[f].nextIndex
            else reply.lastLogIndex + 1
  {
    hide Next, HostAfter, WellFormed, Replicated, DiskLogs, OnAppendReply, RequestOfLead;
    NextParts(c, a);
    SubjectIsOK(c, a);
    FollowerStaysInStep(c, a, leader, f);
    assert CallFromLead(a.r, leader, c.hosts[leader].node.logs);
    assert Next(c, a).hosts[leader].node.role == Leader;
    ReplyOutcome(c.hosts[leader].node, a.r.msg.reply);
  }

  lemma SendStep(c: Cluster, a: Action, leader: Name, f: Name)
    requires Leading(c, leader, f) && StepsTo(c, a, leader) && a.Client? && a.n == leader
    ensures leader in Next(c, a).hosts
    ensures var h := c.hosts[leader];
            && f in Calls(h, a) && Calls(h, a)[f].AppendAsk? && Calls(h, a)[f].append.entries != []
            && Calls(h, a)[f].append.prevLogIndex == h.node.peers[f].nextIndex - 1
            && End(Calls(h, a)[f].append) == |Next(c, a).hosts[leader].node.logs| == |h.node.logs| + 1
  {
    hide Next, HostAfter, WellFormed, Replicated, DiskLogs, DoLog, StoreOK;
    var h := c.hosts[leader];
    NextParts(c, a);
    MemberIsOK(c, leader);
    assert HostFollows(h, leader, leader, h.node.logs);
    LeaderRuns(h, leader, c.hosts.Keys, c.clock);
    SendOutcome(h.node, a.cmd, f);
  }

  lemma LeaderRuns(h: Host, n: Name, members: set<Name>, clock: nat)
    requires HostOK(h, n, members, clock) && h.node.role == Leader
    ensures h.node.running
  {
  }

  /** The leader stays, and its log only grows. */
  lemma {:induction false} LeadingAgain(cs: seq<Cluster>, acts: seq<Action>, leader: Name, f: Name, i: nat, j: nat)
    requires OrderedRun(cs, acts, leader) && i <= j < |cs| && Leading(cs[i], leader, f)
    ensures Leading(cs[j], leader, f)
    ensures cs[i].hosts[leader].node.logs <= cs[j].hosts[leader].node.logs
    decreases j - i
  {
    hide Next, StepsTo, WellFormed, UnderLead, Replicated, HasSoleLeader, RequestsArriveInOrder;
    if i < j {
      LeadingAgain(cs, acts, leader, f, i, j - 1);
      RunStepsTo(cs, acts, leader, j - 1);
      LeadingStays(cs[j - 1], acts[j - 1], leader, f);
    }
  }

  // ---------- one request ----------

  /**
   The leader logs a command at step send, and the request this starts to the follower arrives at step
   arrival; the follower takes part then. Requests sent before it may reach the follower in between.
   */
  ghost predicate Delivers(cs: seq<Cluster>, acts: seq<Action>, leader: Name, f: Name, send: nat, arrival: nat)
    requires OrderedRun(cs, acts, leader)
  {
    && send < arrival < |acts|
    && Leading(cs[send], leader, f)
    && acts[send].Client? && acts[send].n == leader && Ready(cs[send].hosts[leader], acts[send])
    && f in Calls(cs[send].hosts[leader], acts[send])
    && (var a, call := acts[arrival], Calls(cs[send].hosts[leader], acts[send])[f];
        && a.AppendArrives? && a.r.to == f && a.r.stamp == cs[send].clock && a.r.msg == call && call.AppendAsk?
        && f in cs[arrival].hosts && TakesPart(cs[arrival].hosts[f].node, call.append))
  }

  // ---------- main results ----------

  /**
   A request brings the follower to exactly the leader's log as of its send, whatever next index the leader
   had for it, if and only if that index was not 0 or the follower still held nothing when it arrived.
   */
  lemma RequestCatchesUpExactly(cs: seq<Cluster>, acts: seq<Action>, leader: Name, f: Name, send: nat, arrival: nat)
    requires OrderedRun(cs, acts, leader) && Delivers(cs, acts, leader, f, send, arrival)
    ensures f in cs[arrival + 1].hosts && leader in cs[send + 1].hosts
    ensures DiskLogs(cs[arrival + 1].hosts[f].node) == cs[send + 1].hosts[leader].node.logs <==>
            cs[send].hosts[leader].node.peers[f].nextIndex != 0 || DiskLogs(cs[arrival].hosts[f].node) == []
  {
    hide Next, WellFormed, UnderLead, Replicated, DiskLogs, OnAppendRequest, HostAfter, Calls, StepsTo;
    RunStepsTo(cs, acts, leader, send);
    SendStep(cs[send], acts[send], leader, f);
    LeadingStays(cs[send], acts[send], leader, f);
    LeadingAgain(cs, acts, leader, f, send + 1, arrival);
    RunStepsTo(cs, acts, leader, arrival);
    RequestOutcome(cs[arrival], acts[arrival], leader, f);
    var lead := cs[send + 1].hosts[leader].node.logs;
    assert cs[arrival].hosts[leader].node.logs[..|lead|] == lead;
  }

  /** The places of two exchanges in a run: arrival, reply, next command, second arrival. */
  datatype Exchange = Exchange(arrival: nat, reply: nat, send: nat, second: nat)

  function FirstAnswer(cs: seq<Cluster>, acts: seq<Action>, f: Name, x: Exchange): Msg
    requires x.arrival < |acts| && x.arrival < |cs| && f in cs[x.arrival].hosts
    requires var a := acts[x.arrival]; a.AppendArrives? && a.r.msg.AppendAsk?
  {
    var q := acts[x.arrival].r.msg.append;
    AppendAnswer(q, false, OnAppendRequest(cs[x.arrival].hosts[f].node, q).1)
  }

  /**
   A request with entries arrives, its reply reaches the leader, the leader then logs a command, and the
   request this starts arrives. Other replies of the follower may reach the leader at any time.
   */
  ghost predicate TwoExchanges(cs: seq<Cluster>, acts: seq<Action>, leader: Name, f: Name, x: Exchange)
    requires OrderedRun(cs, acts, leader)
  {
    && f in cs[0].hosts && f != leader && x.arrival < x.reply < x.send < x.second < |acts|
    && Delivers(cs, acts, leader, f, x.send, x.second)
    && Leading(cs[x.arrival], leader, f)
    && (var a := acts[x.arrival];
        && a.AppendArrives? && a.r.to == f && a.r.msg.AppendAsk? && a.r.msg.append.entries != [] && !a.r.msg.isHeartbeat
        && TakesPart(cs[x.arrival].hosts[f].node, a.r.msg.append)
        && acts[x.reply] == AppendReplyArrives(a.r.(msg := FirstAnswer(cs, acts, f, x))))
  }

  /** Between the reply and the second send, the leader processes no other reply of the follower. */
  predicate Undisturbed(acts: seq<Action>, f: Name, x: Exchange)
    requires x.send <= |acts|
  {
    forall k :: x.reply < k < x.send ==> NoReplyFrom(acts[k], f)
  }

  /** The first arrival leaves the follower with a log, and it keeps one. */
  lemma HoldsFromFirstArrival(cs: seq<Cluster>, acts: seq<Action>, leader: Name, f: Name, x: Exchange)
    requires OrderedRun(cs, acts, leader) && TwoExchanges(cs, acts, leader, f, x)
    ensures f in cs[x.arrival + 1].hosts && f in cs[x.second].hosts
    ensures DiskLogs(cs[x.arrival + 1].hosts[f].node) != [] && DiskLogs(cs[x.second].hosts[f].node) != []
    ensures FirstAnswer(cs, acts, f, x).reply.lastLogIndex == |DiskLogs(cs[x.arrival + 1].hosts[f].node)| - 1
  {
    hide Next, WellFormed, UnderLead, Replicated, DiskLogs, OnAppendRequest, HostAfter, TakesPart, Delivers;
    RunStepsTo(cs, acts, leader, x.arrival);
    RequestOutcome(cs[x.arrival], acts[x.arrival], leader, f);
    FollowersNeverShrink(cs, acts, leader, x.arrival + 1, x.second, f);
  }

  /**
   After two exchanges the follower holds exactly the leader's log as of the second send, if and only if
   the leader's next index for it was not 0 at that send.
   */
  lemma SecondExchangeCatchesUpExactly(cs: seq<Cluster>, acts: seq<Action>, leader: Name, f: Name, x: Exchange)
    requires OrderedRun(cs, acts, leader) && TwoExchanges(cs, acts, leader, f, x)
    ensures f in cs[x.second + 1].hosts && leader in cs[x.send + 1].hosts
    ensures leader in cs[x.send].hosts && f in cs[x.send].hosts[leader].node.peers
    ensures DiskLogs(cs[x.second + 1].hosts[f].node) == cs[x.send + 1].hosts[leader].node.logs <==>
            cs[x.send].hosts[leader].node.peers[f].nextIndex != 0
  {
    hide Next, WellFormed, UnderLead, Replicated, DiskLogs, OnAppendRequest, HostAfter, Calls, TakesPart, OrderedRun;
    HoldsFromFirstArrival(cs, acts, leader, f, x);
    RequestCatchesUpExactly(cs, acts, leader, f, x.send, x.second);
  }

  /** With no other reply in between, exactly the ignored success leaves the leader at next index 0. */
  lemma UndisturbedNextIndex(cs: seq<Cluster>, acts: seq<Action>, leader: Name, f: Name, x: Exchange)
    requires OrderedRun(cs, acts, leader) && TwoExchanges(cs, acts, leader, f, x) && Undisturbed(acts, f, x)
    ensures leader in cs[x.reply].hosts && f in cs[x.reply].hosts[leader].node.peers
    ensures leader in cs[x.send].hosts && f in cs[x.send].hosts[leader].node.peers
    ensures cs[x.send].hosts[leader].node.peers[f].nextIndex == 0 <==>
            Stuck(cs[x.reply].hosts[leader].node, f, FirstAnswer(cs, acts, f, x).reply)
  {
    hide Next, WellFormed, UnderLead, Replicated, DiskLogs, OnAppendReply, OnAppendRequest, HostAfter, TakesPart,
         NoReplyFrom;
    HoldsFromFirstArrival(cs, acts, leader, f, x);
    LeadingAgain(cs, acts, leader, f, x.arrival, x.reply);
    RunStepsTo(cs, acts, leader, x.reply);
    ReplyStep(cs[x.reply], acts[x.reply], leader, f);
    LeadingStays(cs[x.reply], acts[x.reply], leader, f);
    PeerStretch(cs, acts, leader, f, x.reply + 1, x.send);
  }

  /** Undisturbed, the follower is caught up if and only if the leader was not stuck when it processed the reply. */
  lemma UndisturbedExchangeCatchesUpExactly(cs: seq<Cluster>, acts: seq<Action>, leader: Name, f: Name, x: Exchange)
    requires OrderedRun(cs, acts, leader) && TwoExchanges(cs, acts, leader, f, x) && Undisturbed(acts, f, x)
    ensures f in cs[x.second + 1].hosts && leader in cs[x.send + 1].hosts
    ensures leader in cs[x.reply].hosts && f in cs[x.reply].hosts[leader].node.peers
    ensures DiskLogs(cs[x.second + 1].hosts[f].node) == cs[x.send + 1].hosts[leader].node.logs <==>
            !Stuck(cs[x.reply].hosts[leader].node, f, FirstAnswer(cs, acts, f, x).reply)
  {
    hide OrderedRun, TwoExchanges, Undisturbed, Stuck, FirstAnswer;
    SecondExchangeCatchesUpExactly(cs, acts, leader, f, x);
    UndisturbedNextIndex(cs, acts, leader, f, x);
  }

  /** In particular, an undisturbed exchange after a refused request always catches up. */
  lemma RefusalThenCaughtUp(cs: seq<Cluster>, acts: seq<Action>, leader: Name, f: Name, x: Exchange)
    requires OrderedRun(cs, acts, leader) && TwoExchanges(cs, acts, leader, f, x) && Undisturbed(acts, f, x)
    requires !FirstAnswer(cs, acts, f, x).reply.success
    ensures f in cs[x.second + 1].hosts && leader in cs[x.send + 1].hosts
    ensures DiskLogs(cs[x.second + 1].hosts[f].node) == cs[x.send + 1].hosts[leader].node.logs
  {
    hide OrderedRun, TwoExchanges, Undisturbed, FirstAnswer, DiskLogs;
    UndisturbedExchangeCatchesUpExactly(cs, acts, leader, f, x);
  }
}
