/**
 Replication under a sole leader when requests reach each follower in the order they were sent (some
 may be lost; replies may come in any order): prefixes, honest peer indices, and durable commits.
 */
module Replication {
  import opened RaftLog
  import opened RaftNode
  import opened Cluster
  import opened SoleLeader

  /** One past the last index a request brings its follower to. */
  function End(q: AppendRequest): int {
    q.prevLogIndex + 1 + |q.entries|
  }

  predicate CarriesEntries(r: Rpc) {
    r.msg.AppendAsk? && r.msg.append.entries != []
  }

  // ---------- the invariant ----------

  /** What a follower has on disk is a prefix of the lead; while it runs, so is what it has in memory. */
  ghost predicate HoldsPrefix(n: Node, lead: seq<LogEntry>) {
    && DiskLogs(n) <= lead
    && (n.running ==> n.logs == DiskLogs(n))
  }

  /** The leader's indices for a peer name nothing the peer does not have on disk. */
  predicate HonestIndices(p: Peer, held: seq<LogEntry>) {
    p.nextIndex <= |held| && p.matchIndex < |held|
  }

  /** A request still to come extends what its follower holds; a reply reports no more than that. */
  predicate CallFits(r: Rpc, held: seq<LogEntry>, arrived: nat) {
    && (CarriesEntries(r) ==>
          && r.msg.append.prevLogIndex < |held|
          && (r.stamp > arrived ==> End(r.msg.append) > |held|))
    && (r.msg.AppendAnswer? ==> r.msg.reply.lastLogIndex < |held|)
  }

  predicate EndsInOrder(r: Rpc, s: Rpc) {
    CarriesEntries(r) && CarriesEntries(s) && r.to == s.to && r.stamp < s.stamp ==>
      End(r.msg.append) < End(s.msg.append)
  }

  ghost predicate Replicated(c: Cluster, leader: Name) {
    && leader in c.hosts
    && (forall n <- c.hosts :: n != leader ==> FollowerInStep(c, leader, n))
    && (forall r <- c.net :: r.to in c.hosts && r.to != leader ==>
          CallFits(r, DiskLogs(c.hosts[r.to].node), c.hosts[r.to].arrived))
    && (forall r <- c.net, s <- c.net :: EndsInOrder(r, s))
  }

  ghost predicate FollowerInStep(c: Cluster, leader: Name, n: Name)
    requires leader in c.hosts && n in c.hosts
  {
    var l := c.hosts[leader].node;
    && HoldsPrefix(c.hosts[n].node, l.logs)
    && n in l.peers && HonestIndices(l.peers[n], DiskLogs(c.hosts[n].node))
  }

  // ---------- follower steps ----------

  /** A request whose prev the follower holds: rejected when it starts at 0 and the follower has entries. */
  predicate Rejected(held: seq<LogEntry>, q: AppendRequest) {
    q.prevLogIndex == -1 && held != []
  }

  lemma EntriesAreStretch(q: AppendRequest, lead: seq<LogEntry>)
    requires RequestOfLead(q, lead) && q.entries != []
    ensures End(q) <= |lead| && q.entries == lead[q.prevLogIndex + 1..End(q)]
  {
    assert q.entries[|q.entries| - 1].index == q.entries[0].index + |q.entries| - 1;
    assert forall i :: 0 <= i < |q.entries| ==> q.entries[i] == lead[q.prevLogIndex + 1 + i];
  }

  /** The log after a fitting request: the leader's log as it was when the request was sent. */
  lemma FittingRequest(held: seq<LogEntry>, q: AppendRequest, lead: seq<LogEntry>)
    requires Dense(lead) && held <= lead && RequestOfLead(q, lead) && q.entries != []
    requires q.prevLogIndex < |held|
    ensures End(q) <= |lead|
    ensures q.prevLogIndex >= BaseLogIndex(held) <==> !Rejected(held, q)
    ensures !Rejected(held, q) ==> Splice(held, q.prevLogTerm, q.prevLogIndex, q.entries) == lead[..End(q)]
  {
    hide Splice, RequestOfLead;
    var prev := q.prevLogIndex;
    assert prev >= 0 ==> held[prev] == lead[prev] && q.prevLogTerm == lead[prev].term by { PrevTermAgrees(q, lead); }
    PrefixIsDense(held, lead);
    DenseIsSlice(held);
    SpliceSpec(held, q.prevLogTerm, prev, q.entries);
    EntriesAreStretch(q, lead);
    assert held[..prev + 1] == lead[..prev + 1];
    assert lead[..End(q)] == lead[..prev + 1] + lead[prev + 1..End(q)];
  }

  lemma PrevTermAgrees(q: AppendRequest, lead: seq<LogEntry>)
    requires RequestOfLead(q, lead) && q.entries != []
    ensures q.prevLogIndex < |lead|
    ensures q.prevLogIndex >= 0 ==> q.prevLogTerm == lead[q.prevLogIndex].term
  {
  }

  lemma PrefixIsDense(held: seq<LogEntry>, lead: seq<LogEntry>)
    requires Dense(lead) && held <= lead
    ensures Dense(held)
  {
    assert forall i :: 0 <= i < |held| ==> held[i] == lead[i];
  }

  lemma AppendHoldsPrefix(n: Node, q: AppendRequest, lead: seq<LogEntry>)
    requires Dense(lead) && HoldsPrefix(n, lead) && RequestOfLead(q, lead) && q.entries != []
    requires q.prevLogIndex < |DiskLogs(n)| <= End(q)
    requires !n.running ==> n.logs == []
    ensures var (n', reply) := OnAppendRequest(n, q);
            && HoldsPrefix(n', lead) && DiskLogs(n) <= DiskLogs(n') && |DiskLogs(n')| <= End(q)
            && reply.lastLogIndex < |DiskLogs(n')|
  {
    var held := DiskLogs(n);
    FittingRequest(held, q, lead);
    assert forall i :: 0 <= i < |lead| ==> lead[i].index == i;
    assert held == lead[..|held|];
  }

  /** Every other step leaves what a follower holds alone. */
  lemma OthersHoldPrefix(h: Host, a: Action, lead: seq<LogEntry>)
    requires Ready(h, a) && HoldsPrefix(h.node, lead) && h.node.role != Leader
    requires !h.node.running ==> h.node.logs == []
    requires a.VoteReplyArrives? || a.AppendReplyArrives? ==> h.node.running
    requires a.AppendArrives? ==> a.r.msg.append.entries == []
    ensures HoldsPrefix(NodeAfter(h, a), lead) && DiskLogs(NodeAfter(h, a)) == DiskLogs(h.node)
  {
  }

  lemma EmptyRequestReply(h: Host, a: Action, lead: seq<LogEntry>)
    requires Ready(h, a) && a.AppendArrives? && a.r.msg.append.entries == [] && HoldsPrefix(h.node, lead) && Dense(lead)
    requires !h.node.running ==> h.node.logs == []
    ensures Answer(h, a).Some? && Answer(h, a).value.AppendAnswer?
    ensures Answer(h, a).value.reply.lastLogIndex < |DiskLogs(h.node)|
  {
    var logs := h.node.logs;
    if logs != [] {
      assert logs[|logs| - 1] == lead[|logs| - 1];
    }
  }

  // ---------- leader steps ----------

  lemma ReplyKeepsPeer(n: Node, reply: AppendResponse, isHeartbeat: bool, p: Name, held: seq<LogEntry>)
    requires p in n.peers && HonestIndices(n.peers[p], held) && reply.name in n.peers
    requires reply.name == p ==> reply.lastLogIndex < |held|
    ensures var n' := OnAppendReply(n, reply, isHeartbeat).node;
            p in n'.peers && HonestIndices(n'.peers[p], held)
  {
    hide Matching, Pushes;
  }

  lemma LeaderKeepsPeer(h: Host, a: Action, p: Name, held: seq<LogEntry>)
    requires Ready(h, a) && p in h.node.peers && HonestIndices(h.node.peers[p], held)
    requires a.AppendReplyArrives? && a.r.msg.reply.name == p ==> a.r.msg.reply.lastLogIndex < |held|
    ensures p in NodeAfter(h, a).peers && HonestIndices(NodeAfter(h, a).peers[p], held)
  {
    hide OnAppendReply, AppendCalls, Pushes, Splice;
    if a.AppendReplyArrives? {
      ReplyKeepsPeer(h.node, a.r.msg.reply, a.r.msg.isHeartbeat, p, held);
    }
  }

  /** A request with entries starts where the leader believes its peer ends, and reaches the leader's end. */
  lemma LeaderSends(h: Host, a: Action, p: Name)
    requires Ready(h, a) && LeaderOK(h.node) && p in Calls(h, a) && Calls(h, a)[p].AppendAsk?
    requires Calls(h, a)[p].append.entries != []
    ensures a.Client? && p in h.node.peers
    ensures Calls(h, a)[p].append.prevLogIndex == h.node.peers[p].nextIndex - 1
    ensures End(Calls(h, a)[p].append) == |NodeAfter(h, a).logs| == |h.node.logs| + 1
  {
    DenseIsSlice(h.node.logs);
    if a.Client? {
      var d := DoLog(h.node, a.cmd).node;
      assert Dense(d.logs);
      SentIsOfLead(d, d.peers[p]);
    }
  }

  // ---------- one step ----------

  lemma FollowerStaysInStep(c: Cluster, a: Action, leader: Name, n: Name)
    requires WellFormed(c) && UnderLead(c, leader) && Replicated(c, leader) && Enabled(c, a)
    requires KeepsSoleLeader(c, Next(c, a), leader) && ArrivesInOrder(c, a)
    requires n in c.hosts && n != leader
    ensures n in Next(c, a).hosts && leader in Next(c, a).hosts && FollowerInStep(Next(c, a), leader, n)
    ensures DiskLogs(c.hosts[n].node) <= DiskLogs(Next(c, a).hosts[n].node)
    ensures n == Subject(a) && a.AppendArrives? && a.r.msg.append.entries != [] ==>
              |DiskLogs(Next(c, a).hosts[n].node)| <= End(a.r.msg.append)
    ensures n == Subject(a) && !(a.AppendArrives? && a.r.msg.append.entries != []) ==>
              DiskLogs(Next(c, a).hosts[n].node) == DiskLogs(c.hosts[n].node)
    ensures n == Subject(a) && a.AppendArrives? ==>
              && Answer(c.hosts[n], a).Some? && Answer(c.hosts[n], a).value.AppendAnswer?
              && Answer(c.hosts[n], a).value.reply.lastLogIndex < |DiskLogs(Next(c, a).hosts[n].node)|
  {
    hide Next, HostAfter, NodeAfter, Calls, MintAfter, WellFormed, StoreAfter, FollowerOK, RequestOfLead, StoreOK,
         HoldsPrefix, Answer;
    var h, lead := c.hosts[Subject(a)], c.hosts[leader].node.logs;
    NextParts(c, a);
    SubjectIsOK(c, a);
    MemberIsOK(c, n);
    StepKeepsUnderLead(c, a, leader);
    assert FollowerInStep(c, leader, n);
    assert HostFollows(c.hosts[leader], leader, leader, lead) && HostFollows(c.hosts[n], n, leader, lead);
    LeaderIsDense(c.hosts[leader].node);
    assert IsDelivery(a) ==> CallFromLead(a.r, leader, lead);
    assert IsDelivery(a) && a.r.to != leader ==> CallFits(a.r, DiskLogs(c.hosts[a.r.to].node), c.hosts[a.r.to].arrived);
    if n == Subject(a) {
      FollowerRole(h.node, lead);
      IdleIsEmpty(h, n, c.hosts.Keys, c.clock);
      if a.AppendArrives? {
        AppendStep(h, a, lead);
      } else {
        OthersHoldPrefix(h, a, lead);
      }
    } else if leader == Subject(a) {
      LeaderKeepsPeer(h, a, n, DiskLogs(c.hosts[n].node));
      HoldsPrefixOfLonger(c.hosts[n].node, lead, NodeAfter(h, a).logs);
    }
  }

  lemma FollowerRole(n: Node, lead: seq<LogEntry>)
    requires FollowerOK(n, lead)
    ensures n.role != Leader
  {
  }

  lemma IdleIsEmpty(h: Host, n: Name, members: set<Name>, clock: nat)
    requires HostOK(h, n, members, clock)
    ensures !h.node.running ==> h.node.logs == []
  {
  }

  lemma HoldsPrefixOfLonger(n: Node, lead: seq<LogEntry>, lead': seq<LogEntry>)
    requires HoldsPrefix(n, lead) && lead <= lead'
    ensures HoldsPrefix(n, lead')
  {
  }

  lemma AppendStep(h: Host, a: Action, lead: seq<LogEntry>)
    requires Ready(h, a) && a.AppendArrives? && Dense(lead) && HoldsPrefix(h.node, lead) && h.node.role != Leader
    requires RequestOfLead(a.r.msg.append, lead) && CallFits(a.r, DiskLogs(h.node), h.arrived)
    requires a.r.msg.append.entries != [] ==> a.r.stamp > h.arrived
    requires !h.node.running ==> h.node.logs == []
    ensures var n' := NodeAfter(h, a);
            && HoldsPrefix(n', lead) && DiskLogs(h.node) <= DiskLogs(n')
            && (if a.r.msg.append.entries == [] then DiskLogs(n') == DiskLogs(h.node)
               else |DiskLogs(n')| <= End(a.r.msg.append))
            && Answer(h, a).Some? && Answer(h, a).value.AppendAnswer?
            && Answer(h, a).value.reply.lastLogIndex < |DiskLogs(n')|
  {
    hide OnAppendRequest, RequestOfLead, HoldsPrefix;
    if a.r.msg.append.entries == [] {
      OthersHoldPrefix(h, a, lead);
      EmptyRequestReply(h, a, lead);
    } else {
      AppendHoldsPrefix(h.node, a.r.msg.append, lead);
    }
  }

  lemma NewCallFits(c: Cluster, a: Action, leader: Name, r: Rpc)
    requires WellFormed(c) && UnderLead(c, leader) && Replicated(c, leader) && Enabled(c, a)
    requires KeepsSoleLeader(c, Next(c, a), leader) && ArrivesInOrder(c, a)
    requires r in Added(c.hosts[Subject(a)], c.clock, a) && r.to in c.hosts && r.to != leader
    ensures CallFits(r, DiskLogs(Next(c, a).hosts[r.to].node), Next(c, a).hosts[r.to].arrived)
    ensures CarriesEntries(r) ==> r.stamp == c.clock && Subject(a) == leader
    ensures CarriesEntries(r) ==>
              End(r.msg.append) == |Next(c, a).hosts[leader].node.logs| == |c.hosts[leader].node.logs| + 1
  {
    hide Next, HostAfter, NodeAfter, Calls, MintAfter, WellFormed, StoreAfter, FollowerOK, RequestOfLead, StoreOK,
         HoldsPrefix, Answer, LeaderOK;
    var h, lead := c.hosts[Subject(a)], c.hosts[leader].node.logs;
    NextParts(c, a);
    SubjectIsOK(c, a);
    MemberIsOK(c, r.to);
    AddedSpec(h, c.clock, a, r);
    HostStaysUnderLead(c, a, leader);
    FollowerStaysInStep(c, a, leader, r.to);
    assert HostFollows(c.hosts[leader], leader, leader, lead);
    assert FollowerInStep(c, leader, r.to) && FollowerInStep(Next(c, a), leader, r.to);
    if CarriesEntries(r) {
      LeaderSends(h, a, r.to);
      PrefixIsShorter(c.hosts[r.to].node, lead);
    }
  }

  lemma PrefixIsShorter(n: Node, lead: seq<LogEntry>)
    requires HoldsPrefix(n, lead)
    ensures |DiskLogs(n)| <= |lead|
  {
  }

  lemma OldCallFits(c: Cluster, a: Action, leader: Name, r: Rpc)
    requires WellFormed(c) && UnderLead(c, leader) && Replicated(c, leader) && Enabled(c, a)
    requires KeepsSoleLeader(c, Next(c, a), leader) && ArrivesInOrder(c, a)
    requires r in c.net && r.to in c.hosts && r.to != leader
    ensures r.to in Next(c, a).hosts
    ensures CallFits(r, DiskLogs(Next(c, a).hosts[r.to].node), Next(c, a).hosts[r.to].arrived)
  {
    hide Next, NodeAfter, Calls, MintAfter, WellFormed, StoreAfter, FollowerInStep, UnderLead, DiskLogs,
         KeepsSoleLeader;
    NextParts(c, a);
    SubjectIsOK(c, a);
    FollowerStaysInStep(c, a, leader, r.to);
    assert CallFits(r, DiskLogs(c.hosts[r.to].node), c.hosts[r.to].arrived);
    if Subject(a) == r.to && a.AppendArrives? {
      assert EndsInOrder(a.r, r);
    }
  }

  lemma EndsStayInOrder(c: Cluster, a: Action, leader: Name, r: Rpc, s: Rpc)
    requires WellFormed(c) && UnderLead(c, leader) && Replicated(c, leader) && Enabled(c, a)
    requires KeepsSoleLeader(c, Next(c, a), leader) && ArrivesInOrder(c, a)
    requires r in Next(c, a).net && s in Next(c, a).net
    ensures EndsInOrder(r, s)
  {
    hide Next, HostAfter, NodeAfter, Calls, MintAfter, WellFormed, StoreAfter, FollowerInStep, DiskLogs,
         KeepsSoleLeader, Added, RequestOfLead, HostFollows;
    NextParts(c, a);
    StaysWellFormed(c, a);
    CallIsOK(Next(c, a), r);
    CallIsOK(Next(c, a), s);
    assert r in c.net ==> RpcOK(c, r) by { if r in c.net { CallIsOK(c, r); } }
    assert s in c.net ==> RpcOK(c, s) by { if s in c.net { CallIsOK(c, s); } }
    if CarriesEntries(r) && CarriesEntries(s) && r.to == s.to && r.stamp < s.stamp {
      if s in c.net && r in c.net {
        assert EndsInOrder(r, s);
      } else {
        RequestsAreNotForLeader(c, a, leader, r);
        if r !in c.net {
          NewCallFits(c, a, leader, r);
        }
        if s !in c.net {
          NewCallFits(c, a, leader, s);
        }
        if r in c.net {
          assert CallFromLead(r, leader, c.hosts[leader].node.logs);
          EntriesAreStretch(r.msg.append, c.hosts[leader].node.logs);
        }
      }
    }
  }

  lemma RequestsAreNotForLeader(c: Cluster, a: Action, leader: Name, r: Rpc)
    requires WellFormed(c) && UnderLead(c, leader) && Enabled(c, a) && KeepsSoleLeader(c, Next(c, a), leader)
    requires r in Next(c, a).net && CarriesEntries(r)
    ensures r.to in c.hosts && r.to != leader
  {
    hide Next, HostAfter, WellFormed, RequestOfLead, HostFollows, KeepsSoleLeader;
    StaysWellFormed(c, a);
    CallIsOK(Next(c, a), r);
    StepKeepsUnderLead(c, a, leader);
    assert CallFromLead(r, leader, Next(c, a).hosts[leader].node.logs);
  }

  lemma StepKeepsReplicated(c: Cluster, a: Action, leader: Name)
    requires WellFormed(c) && UnderLead(c, leader) && Replicated(c, leader) && Enabled(c, a)
    requires KeepsSoleLeader(c, Next(c, a), leader) && ArrivesInOrder(c, a)
    ensures Replicated(Next(c, a), leader)
  {
    hide Next, HostAfter, NodeAfter, Calls, MintAfter, WellFormed, StoreAfter, FollowerInStep, UnderLead, CallFits,
         EndsInOrder, KeepsSoleLeader, Added, Replicated;
    NextParts(c, a);
    var c' := Next(c, a);
    ReplicatedLeader(c, leader);
    assert c'.hosts.Keys == c.hosts.Keys by { StaysWellFormed(c, a); }
    forall n <- c'.hosts | n != leader ensures FollowerInStep(c', leader, n) {
      FollowerStaysInStep(c, a, leader, n);
    }
    forall r <- c'.net | r.to in c'.hosts && r.to != leader
      ensures CallFits(r, DiskLogs(c'.hosts[r.to].node), c'.hosts[r.to].arrived)
    {
      if r in c.net {
        OldCallFits(c, a, leader, r);
      } else {
        NewCallFits(c, a, leader, r);
      }
    }
    forall r <- c'.net, s <- c'.net ensures EndsInOrder(r, s) {
      EndsStayInOrder(c, a, leader, r, s);
    }
    MakesReplicated(c', leader);
  }

  lemma ReplicatedLeader(c: Cluster, leader: Name)
    requires Replicated(c, leader)
    ensures leader in c.hosts
  {
  }

  lemma MakesReplicated(c: Cluster, leader: Name)
    requires leader in c.hosts
    requires forall n <- c.hosts :: n != leader ==> FollowerInStep(c, leader, n)
    requires forall r <- c.net :: r.to in c.hosts && r.to != leader ==>
               CallFits(r, DiskLogs(c.hosts[r.to].node), c.hosts[r.to].arrived)
    requires forall r <- c.net, s <- c.net :: EndsInOrder(r, s)
    ensures Replicated(c, leader)
  {
    hide FollowerInStep, CallFits, EndsInOrder;
  }

  // ---------- runs ----------

  lemma InitIsReplicated(c: Cluster, leader: Name)
    requires Init(c) && leader in c.hosts
    ensures Replicated(c, leader)
  {
    forall n <- c.hosts | n != leader ensures FollowerInStep(c, leader, n) {
      assert c.hosts[n] == FreshHost(n, c.hosts.Keys) && c.hosts[leader] == FreshHost(leader, c.hosts.Keys);
    }
  }

  /** One leader from empty logs, and requests with entries delivered in order. */
  ghost predicate OrderedRun(cs: seq<Cluster>, acts: seq<Action>, leader: Name) {
    && IsRun(cs, acts) && leader in cs[0].hosts
    && HasSoleLeader(cs, acts, leader) && RequestsArriveInOrder(cs, acts)
  }

  lemma {:induction false} RunKeepsReplicated(cs: seq<Cluster>, acts: seq<Action>, leader: Name, k: nat)
    requires OrderedRun(cs, acts, leader) && k < |cs|
    ensures WellFormed(cs[k]) && UnderLead(cs[k], leader) && Replicated(cs[k], leader)
    ensures cs[k].hosts.Keys == cs[0].hosts.Keys
  {
    hide WellFormed, UnderLead, KeepsSoleLeader, Replicated, Next, Enabled;
    RunKeepsUnderLead(cs, acts, leader, k);
    if k == 0 {
      InitIsReplicated(cs[0], leader);
    } else {
      RunKeepsReplicated(cs, acts, leader, k - 1);
      RunStep(cs, acts, leader, k - 1);
      StepKeepsReplicated(cs[k - 1], acts[k - 1], leader);
    }
  }

  // ---------- main results ----------

  /**
   Every follower holds a prefix of the leader's log, in memory and on disk alike while it runs; the
   leader's match index names an entry it has on disk, and so does the next index less one, unless -1.
   */
  lemma FollowersHoldPrefixes(cs: seq<Cluster>, acts: seq<Action>, leader: Name, k: nat, n: Name)
    requires OrderedRun(cs, acts, leader) && k < |cs| && n in cs[0].hosts && n != leader
    ensures n in cs[k].hosts && leader in cs[k].hosts && n in cs[k].hosts[leader].node.peers
    ensures var f, l := cs[k].hosts[n].node, cs[k].hosts[leader].node;
            && DiskLogs(f) <= l.logs
            && (f.running ==> f.logs == DiskLogs(f))
            && l.peers[n].matchIndex < |DiskLogs(f)|
            && l.peers[n].nextIndex - 1 < |DiskLogs(f)|
  {
    hide WellFormed, UnderLead, IsRun;
    RunKeepsReplicated(cs, acts, leader, k);
    assert FollowerInStep(cs[k], leader, n);
  }

  /** What a follower has persisted stays, and is only ever extended. */
  lemma {:induction false} FollowersNeverShrink(cs: seq<Cluster>, acts: seq<Action>, leader: Name, i: nat, j: nat,
    n: Name)
    requires OrderedRun(cs, acts, leader) && i <= j < |cs| && n in cs[0].hosts && n != leader
    ensures n in cs[i].hosts && n in cs[j].hosts
    ensures DiskLogs(cs[i].hosts[n].node) <= DiskLogs(cs[j].hosts[n].node)
  {
    hide WellFormed, UnderLead, KeepsSoleLeader, Replicated, Next, Enabled, DiskLogs;
    RunKeepsReplicated(cs, acts, leader, i);
    RunKeepsReplicated(cs, acts, leader, j);
    if i < j {
      FollowersNeverShrink(cs, acts, leader, i, j - 1, n);
      RunKeepsReplicated(cs, acts, leader, j - 1);
      RunStep(cs, acts, leader, j - 1);
      FollowerStaysInStep(cs[j - 1], acts[j - 1], leader, n);
    }
  }
}
