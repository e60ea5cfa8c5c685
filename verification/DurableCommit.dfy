/**
 What a commit of a sole leader means when requests arrive in order: how many nodes have persisted the
 log through the commit index, and that commits are never undone.
 */
module DurableCommit {
  import opened Common
  import opened RaftLog
  import opened RaftNode
  import opened Cluster
  import opened SoleLeader
  import opened Replication

  /** The nodes a commit needs: the leader and the peer that answered, and the coded half of the peers. */
  function CommitNeeds(peers: int): int {
    if peers == 0 then 1 else Max(2, peers / 2)
  }

  /** The nodes that have persisted an entry at index i. */
  function Holders(c: Cluster, i: int): set<Name> {
    set n | n in c.hosts && |DiskLogs(c.hosts[n].node)| > i
  }

  ghost predicate Durable(c: Cluster, leader: Name) {
    leader in c.hosts &&
    var i := c.hosts[leader].node.commitIndex;
    i >= 0 ==> |Holders(c, i)| >= CommitNeeds(|c.hosts| - 1)
  }

  /** When the leader moves its commit index, it counted the peers that match, the answering one among them. */
  lemma CommitIsCounted(h: Host, a: Action)
    requires Ready(h, a) && LeaderOK(h.node) && (h.node.role == Leader ==> NodeAfter(h, a).role == Leader)
    ensures var n' := NodeAfter(h, a);
            && n'.commitIndex >= h.node.commitIndex
            && (n'.commitIndex > h.node.commitIndex ==>
                  if h.node.peers == map[] then n'.commitIndex < |n'.logs|
                  else
                    && 1 + |Matching(n'.peers, n'.commitIndex)| >= |n'.peers| / 2
                    && |Matching(n'.peers, n'.commitIndex)| >= 1)
  {
    hide AppendCalls, Pushes, Splice;
    if a.AppendReplyArrives? {
      var n' := NodeAfter(h, a);
      if n'.commitIndex > h.node.commitIndex {
        assert a.r.msg.reply.name in Matching(n'.peers, n'.commitIndex);
      }
    }
  }

  lemma LeaderHolds(c: Cluster, leader: Name)
    requires UnderLead(c, leader)
    ensures DiskLogs(c.hosts[leader].node) == c.hosts[leader].node.logs
    ensures LeaderOK(c.hosts[leader].node)
  {
    assert HostFollows(c.hosts[leader], leader, leader, c.hosts[leader].node.logs);
  }

  /** A peer that matches an index has persisted it. */
  lemma MatchingHold(c: Cluster, leader: Name, i: LastIndex)
    requires WellFormed(c) && UnderLead(c, leader) && Replicated(c, leader) && i < |c.hosts[leader].node.logs|
    ensures |Holders(c, i)| >= 1 + |Matching(c.hosts[leader].node.peers, i)|
    ensures |c.hosts[leader].node.peers| == |c.hosts| - 1
  {
    hide WellFormed, UnderLead, DiskLogs;
    LeaderHolds(c, leader);
    MemberIsOK(c, leader);
    var peers := c.hosts[leader].node.peers;
    var m := Matching(peers, i);
    forall p <- m ensures p in Holders(c, i) {
      assert FollowerInStep(c, leader, p);
    }
    SubsetIsSmaller(m + {leader}, Holders(c, i));
    assert |c.hosts.Keys - {leader}| == |c.hosts| - 1 && |peers| == |peers.Keys|;
  }

  lemma HoldersStay(c: Cluster, a: Action, leader: Name, i: LastIndex)
    requires WellFormed(c) && UnderLead(c, leader) && Replicated(c, leader) && Enabled(c, a)
    requires KeepsSoleLeader(c, Next(c, a), leader) && ArrivesInOrder(c, a)
    ensures |Holders(c, i)| <= |Holders(Next(c, a), i)|
  {
    hide WellFormed, UnderLead, Replicated, Enabled, KeepsSoleLeader, Next, ArrivesInOrder, DiskLogs;
    var c' := Next(c, a);
    StepKeepsUnderLead(c, a, leader);
    LeaderHolds(c, leader);
    LeaderHolds(c', leader);
    StaysWellFormed(c, a);
    ReplicatedLeader(c, leader);
    forall n <- Holders(c, i) ensures n in Holders(c', i) {
      if n != leader {
        FollowerStaysInStep(c, a, leader, n);
        assert DiskLogs(c.hosts[n].node) <= DiskLogs(c'.hosts[n].node);
      } else {
        assert c.hosts[leader].node.logs <= c'.hosts[leader].node.logs;
      }
    }
    SubsetIsSmaller(Holders(c, i), Holders(c', i));
  }

  lemma StepKeepsDurable(c: Cluster, a: Action, leader: Name)
    requires WellFormed(c) && UnderLead(c, leader) && Replicated(c, leader) && Durable(c, leader) && Enabled(c, a)
    requires KeepsSoleLeader(c, Next(c, a), leader) && ArrivesInOrder(c, a)
    ensures Durable(Next(c, a), leader)
    ensures c.hosts[leader].node.commitIndex <= Next(c, a).hosts[leader].node.commitIndex
  {
    hide WellFormed, UnderLead, Replicated, Next, ArrivesInOrder, Holders, NodeAfter, HostAfter, StoreAfter, Calls,
         Added, Matching, LeaderOK;
    var c', l := Next(c, a), c.hosts[leader].node;
    NextParts(c, a);
    StaysWellFormed(c, a);
    StepKeepsUnderLead(c, a, leader);
    StepKeepsReplicated(c, a, leader);
    LeaderHolds(c, leader);
    LeaderHolds(c', leader);
    if leader == Subject(a) {
      CommitIsCounted(c.hosts[leader], a);
    }
    var l' := c'.hosts[leader].node;
    assert |c'.hosts| == |c'.hosts.Keys| == |c.hosts.Keys| == |c.hosts|;
    CommitWithinLog(l');
    if l'.commitIndex > l.commitIndex {
      MatchingHold(c', leader, l'.commitIndex);
      PeersStay(c, a, leader);
    } else {
      HoldersStay(c, a, leader, l.commitIndex);
    }
  }

  lemma CommitWithinLog(n: Node)
    requires LeaderOK(n)
    ensures n.commitIndex < |n.logs|
  {
  }

  lemma PeersStay(c: Cluster, a: Action, leader: Name)
    requires WellFormed(c) && Enabled(c, a) && leader in c.hosts
    ensures leader in Next(c, a).hosts
    ensures c.hosts[leader].node.peers == map[] <==> Next(c, a).hosts[leader].node.peers == map[]
  {
    hide WellFormed, Next;
    StaysWellFormed(c, a);
    MemberIsOK(c, leader);
    MemberIsOK(Next(c, a), leader);
    assert c.hosts[leader].node.peers.Keys == Next(c, a).hosts[leader].node.peers.Keys;
  }

  lemma {:induction false} RunKeepsDurable(cs: seq<Cluster>, acts: seq<Action>, leader: Name, k: nat)
    requires OrderedRun(cs, acts, leader) && k < |cs|
    ensures Durable(cs[k], leader)
  {
    hide WellFormed, UnderLead, KeepsSoleLeader, Replicated, Next, Enabled, Holders;
    if k == 0 {
      assert cs[0].hosts[leader] == FreshHost(leader, cs[0].hosts.Keys);
    } else {
      RunKeepsDurable(cs, acts, leader, k - 1);
      RunKeepsReplicated(cs, acts, leader, k - 1);
      RunStep(cs, acts, leader, k - 1);
      StepKeepsDurable(cs[k - 1], acts[k - 1], leader);
    }
  }

  // ---------- main results ----------

  /**
   At every moment, the leader and enough peers for the coded threshold, at least max(2, half the peers)
   nodes in all, have persisted the leader's own log through the commit index.
   */
  lemma CommitsAreDurable(cs: seq<Cluster>, acts: seq<Action>, leader: Name, k: nat)
    requires OrderedRun(cs, acts, leader) && k < |cs|
    ensures leader in cs[k].hosts
    ensures var i, lead := cs[k].hosts[leader].node.commitIndex, cs[k].hosts[leader].node.logs;
            i >= 0 ==>
              && leader in Holders(cs[k], i)
              && |Holders(cs[k], i)| >= CommitNeeds(|cs[k].hosts| - 1)
              && i < |lead|
              && (forall n <- Holders(cs[k], i) :: DiskLogs(cs[k].hosts[n].node)[..i + 1] == lead[..i + 1])
  {
    hide WellFormed, UnderLead, IsRun, OrderedRun;
    RunKeepsReplicated(cs, acts, leader, k);
    RunKeepsDurable(cs, acts, leader, k);
    LeaderHolds(cs[k], leader);
    var i, lead := cs[k].hosts[leader].node.commitIndex, cs[k].hosts[leader].node.logs;
    forall n <- Holders(cs[k], i) | i >= 0 ensures DiskLogs(cs[k].hosts[n].node)[..i + 1] == lead[..i + 1] {
      if n != leader {
        assert FollowerInStep(cs[k], leader, n);
      }
    }
  }

  /** The least number of holders is a strict majority exactly in clusters of up to three nodes. */
  lemma ThresholdIsMajorityExactly(size: nat)
    requires size > 0
    ensures 2 * CommitNeeds(size - 1) > size <==> size <= 3
  {
  }

  /** In those clusters more than half of the nodes have persisted everything committed. */
  lemma SmallClustersCommitByMajority(cs: seq<Cluster>, acts: seq<Action>, leader: Name, k: nat)
    requires OrderedRun(cs, acts, leader) && k < |cs| && |cs[k].hosts| <= 3
    requires leader in cs[k].hosts && cs[k].hosts[leader].node.commitIndex >= 0
    ensures 2 * |Holders(cs[k], cs[k].hosts[leader].node.commitIndex)| > |cs[k].hosts|
  {
    hide IsRun, OrderedRun, Holders;
    RunKeepsDurable(cs, acts, leader, k);
    assert |cs[k].hosts| > 0;
    ThresholdIsMajorityExactly(|cs[k].hosts|);
  }

  /** The commit index never goes back, and the committed part of the leader's log never changes. */
  lemma {:induction false} CommitsAreFinal(cs: seq<Cluster>, acts: seq<Action>, leader: Name, i: nat, j: nat)
    requires OrderedRun(cs, acts, leader) && i <= j < |cs|
    ensures leader in cs[i].hosts && leader in cs[j].hosts
    ensures var before, after := cs[i].hosts[leader].node, cs[j].hosts[leader].node;
            && before.logs <= after.logs
            && before.commitIndex <= after.commitIndex
            && before.commitIndex < |before.logs|
            && after.logs[..before.commitIndex + 1] == before.logs[..before.commitIndex + 1]
  {
    hide WellFormed, UnderLead, KeepsSoleLeader, Replicated, Next, Enabled, Durable, LeaderOK;
    RunKeepsReplicated(cs, acts, leader, i);
    LeaderHolds(cs[i], leader);
    CommitWithinLog(cs[i].hosts[leader].node);
    if i < j {
      CommitsAreFinal(cs, acts, leader, i, j - 1);
      RunKeepsReplicated(cs, acts, leader, j - 1);
      RunKeepsDurable(cs, acts, leader, j - 1);
      RunStep(cs, acts, leader, j - 1);
      StepKeepsUnderLead(cs[j - 1], acts[j - 1], leader);
      StepKeepsDurable(cs[j - 1], acts[j - 1], leader);
      RunKeepsReplicated(cs, acts, leader, j);
    }
  }
}
