/**
 No node votes twice in a term, for itself or by a grant, in any run with crashes, restarts, loss,
 reordering and redelivered requests. Some writers of the current term do not persist it; what counts
 is that the persisted term covers every vote and never exceeds the term in memory.
 */
module OneVote {
  import opened Common
  import opened MachineInts
  import opened RaftNode
  import opened Cluster

  ghost predicate OneVotePerTerm(votes: set<Vote>) {
    forall v <- votes, w <- votes :: v.voter == w.voter && v.term == w.term ==> v == w
  }

  /** The persisted term never exceeds the term of a running node. */
  predicate DiskBehindMemory(n: Node) {
    n.running && n.disk.Some? ==> n.disk.value.term <= n.currentTerm
  }

  predicate Covers(disk: Option<PersistRecord>, term: Uint64) {
    disk.Some? && term <= disk.value.term
  }

  ghost predicate VotesCovered(c: Cluster) {
    && (forall n <- c.hosts :: DiskBehindMemory(c.hosts[n].node))
    && (forall v <- c.votes :: v.voter in c.hosts && Covers(c.hosts[v.voter].node.disk, v.term))
    && OneVotePerTerm(c.votes)
  }

  /** The persisted term only grows, and a vote is cast in a term above it that is then persisted. */
  lemma HandlerCoversVotes(h: Host, a: Action)
    requires Ready(h, a) && DiskBehindMemory(h.node)
    requires a.VoteReplyArrives? ==> h.node.running
    requires Campaigns(h, a) ==> h.node.currentTerm < MAX_UINT64
    requires !h.node.running ==> h.node.role == Follower
    ensures DiskBehindMemory(NodeAfter(h, a))
    ensures forall t: Uint64 :: Covers(h.node.disk, t) ==> Covers(NodeAfter(h, a).disk, t)
    ensures forall v <- VotesCast(h, a) ::
              v.voter == Subject(a) && Covers(NodeAfter(h, a).disk, v.term) && !Covers(h.node.disk, v.term)
    ensures forall v <- VotesCast(h, a), w <- VotesCast(h, a) :: v == w
  {
    hide OnAppendReply, Pushes, AppendCalls;
    if a.AppendReplyArrives? {
      ReplyMovesIndices(h.node, a.r.msg.reply, a.r.msg.isHeartbeat);
    }
  }

  lemma StepKeepsVotesCovered(c: Cluster, a: Action)
    requires WellFormed(c) && VotesCovered(c) && Enabled(c, a) && TermDoesNotWrap(c, a)
    ensures VotesCovered(Next(c, a))
  {
    hide Next, HostAfter, NodeAfter, Calls, Added, VotesCast, MintAfter, WellFormed, Ready;
    var h, c' := c.hosts[Subject(a)], Next(c, a);
    NextParts(c, a);
    SubjectIsOK(c, a);
    assert DiskBehindMemory(h.node);
    HandlerCoversVotes(h, a);
    forall v <- c'.votes ensures v.voter in c'.hosts && Covers(c'.hosts[v.voter].node.disk, v.term) {
    }
    forall v <- c'.votes, w <- c'.votes | v.voter == w.voter && v.term == w.term ensures v == w {
    }
  }

  lemma {:induction false} RunKeepsVotesCovered(cs: seq<Cluster>, acts: seq<Action>, k: nat)
    requires IsRun(cs, acts) && TermsDoNotWrap(cs, acts) && k < |cs|
    ensures WellFormed(cs[k]) && VotesCovered(cs[k])
  {
    if k == 0 {
      InitIsWellFormed(cs[0]);
    } else {
      RunKeepsVotesCovered(cs, acts, k - 1);
      StaysWellFormed(cs[k - 1], acts[k - 1]);
      StepKeepsVotesCovered(cs[k - 1], acts[k - 1]);
    }
  }

  /** In every state of every run no node has voted for two candidates in one term. */
  lemma NoNodeVotesTwice(cs: seq<Cluster>, acts: seq<Action>)
    requires IsRun(cs, acts) && TermsDoNotWrap(cs, acts)
    ensures forall k :: 0 <= k < |cs| ==> OneVotePerTerm(cs[k].votes)
  {
    forall k | 0 <= k < |cs| ensures OneVotePerTerm(cs[k].votes) {
      RunKeepsVotesCovered(cs, acts, k);
    }
  }

  /** What makes it so: on disk, a term at least that of every vote cast, and never one above memory. */
  lemma PersistedTermCoversVotes(cs: seq<Cluster>, acts: seq<Action>, k: nat, n: Name)
    requires IsRun(cs, acts) && TermsDoNotWrap(cs, acts) && k < |cs| && n in cs[k].hosts
    ensures forall v <- cs[k].votes :: v.voter == n ==> Covers(cs[k].hosts[n].node.disk, v.term)
    ensures DiskBehindMemory(cs[k].hosts[n].node)
  {
    hide IsRun, WellFormed;
    RunKeepsVotesCovered(cs, acts, k);
  }
}
