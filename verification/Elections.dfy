/**
 Election uniqueness (section 5.2 of the Raft paper), in the form the code supports: at most one node
 takes the step to LEADER in its campaign for a given term. A voter's answer must reach the candidate
 before a later campaign, and the cluster size must let any two quorums meet.
 */
module Elections {
  import opened Common
  import opened RaftNode
  import opened Cluster
  import opened OneVote

  /** The votes with which a node of that many peers becomes leader: more than half of its peers, and one reply. */
  function VotesNeeded(peers: int): int {
    if peers == 0 then 1 else Max(2, peers / 2 + 1)
  }

  // ---------- which cluster sizes make quorums meet ----------

  ghost predicate QuorumsMeet(members: set<Name>) {
    forall a: set<Name>, b: set<Name> ::
      a <= members && b <= members && |a| >= VotesNeeded(|members| - 1) && |b| >= VotesNeeded(|members| - 1) ==>
        a * b != {}
  }

  lemma LargeSubsetsMeet(a: set<Name>, b: set<Name>, members: set<Name>)
    requires a <= members && b <= members && |a| + |b| > |members|
    ensures a * b != {}
  {
    if a * b == {} {
      assert |a + b| == |a| + |b|;
      SubsetIsSmaller(a + b, members);
    }
  }

  lemma SubsetOfSize(s: set<Name>, k: nat) returns (t: set<Name>)
    requires k <= |s|
    ensures t <= s && |t| == k
  {
    if k == 0 {
      t := {};
    } else {
      var x :| x in s;
      t := SubsetOfSize(s - {x}, k - 1);
      t := t + {x};
    }
  }

  /** Any two quorums meet exactly in clusters of odd size and of size 2. */
  lemma QuorumsMeetExactly(members: set<Name>)
    requires members != {}
    ensures QuorumsMeet(members) <==> |members| % 2 == 1 || |members| == 2
  {
    var k := VotesNeeded(|members| - 1);
    if |members| % 2 == 1 || |members| == 2 {
      forall a: set<Name>, b: set<Name> | a <= members && b <= members && |a| >= k && |b| >= k ensures a * b != {} {
        LargeSubsetsMeet(a, b, members);
      }
    } else {
      assert 2 * k == |members|;
      var a := SubsetOfSize(members, k);
      var b := members - a;
      assert |b| == k && a * b == {};
    }
  }

  // ---------- counting votes ----------

  predicate Grants(r: Rpc) {
    r.msg.VoteAnswer? && r.msg.granted.voteGranted
  }

  predicate CountIsRight(h: Host) {
    && h.node.votesReceived == |h.counted|
    && (h.node.role == Candidate ==> h.node.name in h.counted)
  }

  ghost predicate CountedVoted(c: Cluster, n: Name)
    requires n in c.hosts
  {
    forall v <- c.hosts[n].counted :: v in c.hosts && Vote(v, c.hosts[n].campaign, n) in c.votes
  }

  /** A granting answer stands for a vote, and while it may still be counted its voter is not counted yet. */
  ghost predicate AnswerOK(c: Cluster, r: Rpc) {
    Grants(r) && r.from in c.hosts ==>
      && Vote(r.to, r.msg.vote.term, r.from) in c.votes
      && (r.stamp >= c.hosts[r.from].born && r.msg.vote.term == c.hosts[r.from].campaign ==>
         r.to !in c.hosts[r.from].counted)
  }

  ghost predicate AnswersDiffer(net: set<Rpc>) {
    forall r <- net, s <- net ::
      Grants(r) && Grants(s) && r.from == s.from && r.to == s.to && r.msg.vote.term == s.msg.vote.term ==> r == s
  }

  ghost predicate VictoryOK(c: Cluster, v: Victory) {
    && v.quorum <= c.hosts.Keys && |v.quorum| >= VotesNeeded(|c.hosts| - 1)
    && forall m <- v.quorum :: Vote(m, v.term, v.name) in c.votes
  }

  ghost predicate Counted(c: Cluster) {
    && (forall n <- c.hosts :: CountIsRight(c.hosts[n]) && CountedVoted(c, n))
    && (forall r <- c.net :: AnswerOK(c, r))
    && AnswersDiffer(c.net)
    && (forall v <- c.victories :: VictoryOK(c, v))
  }

  lemma OtherHandlersKeepVotes(h: Host, a: Action)
    requires Ready(h, a) && !a.Timer? && !a.VoteReplyArrives? && !a.Crash?
    ensures NodeAfter(h, a).votesReceived == h.node.votesReceived && CountedAfter(h, a) == h.counted
    ensures NodeAfter(h, a).role == Candidate ==> h.node.role == Candidate
  {
    hide OnAppendReply, Pushes, AppendCalls;
    if a.AppendReplyArrives? {
      ReplyMovesIndices(h.node, a.r.msg.reply, a.r.msg.isHeartbeat);
    }
  }

  lemma HandlerCounts(h: Host, a: Action)
    requires Ready(h, a) && CountIsRight(h) && h.node.name == Subject(a)
    requires CountsVote(h, a) ==> a.r.to !in h.counted
    ensures NodeAfter(h, a).votesReceived == |CountedAfter(h, a)|
    ensures NodeAfter(h, a).role == Candidate ==> Subject(a) in CountedAfter(h, a)
    ensures CountsVote(h, a) ==> a.r.msg.granted.voteGranted && h.node.role == Candidate
  {
    hide DoLog, OnAppendReply, OnAppendRequest, OnVoteRequest;
    if !a.Timer? && !a.VoteReplyArrives? && !a.Crash? {
      OtherHandlersKeepVotes(h, a);
    }
  }

  /** A winner holds the votes of a quorum, its own among them. */
  lemma WinnerHasQuorum(h: Host, a: Action)
    requires Ready(h, a) && CountIsRight(h) && h.node.name == Subject(a)
    requires CountsVote(h, a) ==> a.r.to !in h.counted
    requires Wins(h, a)
    ensures |CountedAfter(h, a)| >= VotesNeeded(|h.node.peers|)
  {
    hide DoLog, OnAppendReply, OnAppendRequest, OnVoteRequest;
  }

  /** An answer a step adds grants exactly when the step casts that vote. */
  lemma GrantingIsVoting(h: Host, clock: nat, a: Action, r: Rpc)
    requires Ready(h, a) && r in Added(h, clock, a) && Grants(r)
    ensures a.VoteRequestArrives? && r == a.r.(msg := r.msg) && r.msg.vote == a.r.msg.vote
    ensures VotesCast(h, a) == {Vote(r.to, r.msg.vote.term, r.msg.vote.name)}
    ensures Added(h, clock, a) == {r}
  {
  }

  lemma CampaignCastsVote(h: Host, a: Action)
    requires Ready(h, a) && Campaigns(h, a)
    ensures Vote(Subject(a), NodeAfter(h, a).currentTerm, Subject(a)) in VotesCast(h, a)
  {
  }

  lemma CampaignAfter(h: Host, clock: nat, a: Action)
    requires Ready(h, a)
    ensures HostAfter(h, clock, a).campaign ==
            if a.Crash? then 0 else if Campaigns(h, a) then NodeAfter(h, a).currentTerm else h.campaign
  {
    hide NodeAfter, StoreAfter, CountedAfter;
  }

  /** What a step counts at its host are voters of the host's campaign. */
  lemma SubjectCountsVoters(c: Cluster, a: Action)
    requires WellFormed(c) && Counted(c) && Enabled(c, a) && VoteReplyIsCurrent(c, a)
    ensures Subject(a) in Next(c, a).hosts && CountIsRight(Next(c, a).hosts[Subject(a)]) &&
            CountedVoted(Next(c, a), Subject(a))
  {
    hide Next, HostAfter, NodeAfter, Calls, Added, VotesCast, MintAfter, WellFormed, StoreAfter, VictoriesWon, Ready;
    var h, n := c.hosts[Subject(a)], Subject(a);
    NextParts(c, a);
    CampaignAfter(h, c.clock, a);
    SubjectIsOK(c, a);
    StaysWellFormed(c, a);
    assert HostOK(Next(c, a).hosts[n], n, c.hosts.Keys, Next(c, a).clock) by { MemberIsOK(Next(c, a), n); }
    assert CountIsRight(h) && CountedVoted(c, n);
    ReplyNotCountedYet(c, a);
    HandlerCounts(h, a);
    if CountsVote(h, a) {
      assert AnswerOK(c, a.r);
    }
    if Campaigns(h, a) {
      CampaignCastsVote(h, a);
    }
  }

  lemma CountedStayVoters(c: Cluster, a: Action, n: Name)
    requires WellFormed(c) && Counted(c) && Enabled(c, a) && VoteReplyIsCurrent(c, a) && n in c.hosts
    ensures n in Next(c, a).hosts && CountIsRight(Next(c, a).hosts[n]) && CountedVoted(Next(c, a), n)
  {
    hide Next, HostAfter, NodeAfter, Calls, Added, VotesCast, MintAfter, WellFormed, StoreAfter, VictoriesWon, Ready,
         CountedAfter;
    NextParts(c, a);
    if n == Subject(a) {
      SubjectCountsVoters(c, a);
    } else {
      assert CountIsRight(c.hosts[n]) && CountedVoted(c, n);
    }
  }

  lemma ReplyNotCountedYet(c: Cluster, a: Action)
    requires Counted(c) && Enabled(c, a) && VoteReplyIsCurrent(c, a)
    ensures CountsVote(c.hosts[Subject(a)], a) ==> Grants(a.r) && a.r.to !in c.hosts[Subject(a)].counted
  {
    var h := c.hosts[Subject(a)];
    if CountsVote(h, a) {
      assert AnswerOK(c, a.r);
    }
  }

  /** A counted answer is used up, and a new campaign has counted only itself. */
  lemma OldAnswerStaysOK(c: Cluster, a: Action, r: Rpc)
    requires WellFormed(c) && Counted(c) && Enabled(c, a) && VoteReplyIsCurrent(c, a)
    requires r in c.net && r !in Removed(a)
    ensures AnswerOK(Next(c, a), r)
  {
    hide NodeAfter, Calls, Added, VotesCast, MintAfter, WellFormed, StoreAfter, VictoriesWon, Ready;
    CallIsOK(c, r);
    assert AnswerOK(c, r);
    if Grants(r) && r.from == Subject(a) && CountsVote(c.hosts[Subject(a)], a) {
      ReplyNotCountedYet(c, a);
    }
  }

  /** A new granting answer stands for a new vote. */
  lemma NewAnswerIsNewVote(c: Cluster, a: Action, r: Rpc)
    requires WellFormed(c) && VotesCovered(c) && Enabled(c, a) && TermDoesNotWrap(c, a)
    requires r in Added(c.hosts[Subject(a)], c.clock, a) && Grants(r)
    ensures Vote(r.to, r.msg.vote.term, r.from) !in c.votes
    ensures Vote(r.to, r.msg.vote.term, r.from) in VotesCast(c.hosts[Subject(a)], a)
    ensures r.to == Subject(a) != r.from && a.VoteRequestArrives?
  {
    hide NodeAfter, Calls, Added, WellFormed, StoreAfter, Ready, VotesCast;
    var h := c.hosts[Subject(a)];
    SubjectIsOK(c, a);
    GrantingIsVoting(h, c.clock, a, r);
    assert DiskBehindMemory(h.node);
    HandlerCoversVotes(h, a);
  }

  /** So its voter is counted nowhere in that term. */
  lemma NewAnswerIsOK(c: Cluster, a: Action, r: Rpc)
    requires WellFormed(c) && VotesCovered(c) && Counted(c) && Enabled(c, a) && TermDoesNotWrap(c, a)
    requires r in Added(c.hosts[Subject(a)], c.clock, a) && Grants(r)
    ensures AnswerOK(Next(c, a), r)
  {
    hide Next, HostAfter, NodeAfter, Calls, Added, MintAfter, WellFormed, StoreAfter, VictoriesWon, Ready, VotesCast,
         VotesCovered;
    NextParts(c, a);
    NewAnswerIsNewVote(c, a, r);
    if r.from in c.hosts {
      assert CountedVoted(c, r.from);
    }
  }

  lemma AnswersStayDifferent(c: Cluster, a: Action)
    requires WellFormed(c) && VotesCovered(c) && Counted(c) && Enabled(c, a) && TermDoesNotWrap(c, a)
    ensures AnswersDiffer(Next(c, a).net)
  {
    hide Next, NodeAfter, Calls, Added, MintAfter, WellFormed, StoreAfter, VictoriesWon, Ready, VotesCast;
    NextParts(c, a);
    var h, net := c.hosts[Subject(a)], Next(c, a).net;
    forall r <- net, s <- net |
      Grants(r) && Grants(s) && r.from == s.from && r.to == s.to && r.msg.vote.term == s.msg.vote.term
      ensures r == s
    {
      assert r in c.net ==> AnswerOK(c, r);
      assert s in c.net ==> AnswerOK(c, s);
      assert r in c.net ==> RpcOK(c, r) by { if r in c.net { CallIsOK(c, r); } }
      assert s in c.net ==> RpcOK(c, s) by { if s in c.net { CallIsOK(c, s); } }
      if r in Added(h, c.clock, a) && r !in c.net {
        NewAnswerIsNewVote(c, a, r);
        GrantingIsVoting(h, c.clock, a, r);
      }
      if s in Added(h, c.clock, a) && s !in c.net {
        NewAnswerIsNewVote(c, a, s);
        GrantingIsVoting(h, c.clock, a, s);
      }
    }
  }

  lemma NewVictoryHasQuorum(c: Cluster, a: Action)
    requires WellFormed(c) && Counted(c) && Enabled(c, a) && VoteReplyIsCurrent(c, a)
    requires Wins(c.hosts[Subject(a)], a)
    ensures |CountedAfter(c.hosts[Subject(a)], a)| >= VotesNeeded(|c.hosts| - 1)
  {
    hide NodeAfter, Calls, Added, WellFormed, StoreAfter, Ready, VotesCast, CountedAfter, Wins;
    var h := c.hosts[Subject(a)];
    SubjectIsOK(c, a);
    assert CountIsRight(h);
    ReplyNotCountedYet(c, a);
    WinnerHasQuorum(h, a);
    assert |c.hosts.Keys - {Subject(a)}| == |c.hosts| - 1;
    assert |h.node.peers| == |h.node.peers.Keys|;
  }

  lemma OldVictoryStaysOK(c: Cluster, c': Cluster, v: Victory)
    requires VictoryOK(c, v) && c.votes <= c'.votes && c.hosts.Keys == c'.hosts.Keys
    ensures VictoryOK(c', v)
  {
    assert |c.hosts| == |c.hosts.Keys| && |c'.hosts| == |c'.hosts.Keys|;
  }

  lemma NewVictoryIsOK(c: Cluster, a: Action)
    requires WellFormed(c) && Counted(c) && Enabled(c, a) && VoteReplyIsCurrent(c, a)
    requires Wins(c.hosts[Subject(a)], a)
    ensures var h := c.hosts[Subject(a)];
            VictoryOK(Next(c, a), Victory(Subject(a), HostAfter(h, c.clock, a).campaign, CountedAfter(h, a)))
  {
    hide Next, HostAfter, NodeAfter, Calls, Added, MintAfter, WellFormed, StoreAfter, Ready, VotesCast, Wins,
         CountedAfter, Counted;
    NextParts(c, a);
    NewVictoryHasQuorum(c, a);
    CountedStayVoters(c, a, Subject(a));
    assert Next(c, a).hosts.Keys == c.hosts.Keys;
    assert |c.hosts| == |c.hosts.Keys| && |Next(c, a).hosts| == |Next(c, a).hosts.Keys|;
  }

  lemma VictoriesStayOK(c: Cluster, a: Action, v: Victory)
    requires WellFormed(c) && Counted(c) && Enabled(c, a) && VoteReplyIsCurrent(c, a)
    requires v in Next(c, a).victories
    ensures VictoryOK(Next(c, a), v)
  {
    hide Next, NodeAfter, Calls, Added, MintAfter, WellFormed, StoreAfter, Ready, VotesCast, Wins, CountedAfter,
         HostAfter, VictoryOK;
    NextParts(c, a);
    if v in c.victories {
      OldVictoryStaysOK(c, Next(c, a), v);
    } else {
      NewVictoryIsOK(c, a);
    }
  }

  lemma StepKeepsCounted(c: Cluster, a: Action)
    requires WellFormed(c) && VotesCovered(c) && Counted(c) && Enabled(c, a)
    requires VoteReplyIsCurrent(c, a) && TermDoesNotWrap(c, a)
    ensures Counted(Next(c, a))
  {
    hide Next, NodeAfter, Calls, Added, MintAfter, WellFormed, StoreAfter, Ready, VotesCast, HostAfter, VictoriesWon;
    NextParts(c, a);
    var c' := Next(c, a);
    forall n <- c'.hosts ensures CountIsRight(c'.hosts[n]) && CountedVoted(c', n) {
      CountedStayVoters(c, a, n);
    }
    forall r <- c'.net ensures AnswerOK(c', r) {
      if r in c.net && r !in Removed(a) {
        OldAnswerStaysOK(c, a, r);
      } else if Grants(r) {
        NewAnswerIsOK(c, a, r);
      }
    }
    AnswersStayDifferent(c, a);
    forall v <- c'.victories ensures VictoryOK(c', v) {
      VictoriesStayOK(c, a, v);
    }
  }

  lemma {:induction false} RunKeepsCounted(cs: seq<Cluster>, acts: seq<Action>, k: nat)
    requires IsRun(cs, acts) && TermsDoNotWrap(cs, acts) && VoteRepliesAreCurrent(cs, acts) && k < |cs|
    ensures WellFormed(cs[k]) && VotesCovered(cs[k]) && Counted(cs[k]) && cs[k].hosts.Keys == cs[0].hosts.Keys
  {
    RunKeepsVotesCovered(cs, acts, k);
    if k > 0 {
      RunKeepsCounted(cs, acts, k - 1);
      StaysWellFormed(cs[k - 1], acts[k - 1]);
      StepKeepsCounted(cs[k - 1], acts[k - 1]);
    }
  }

  lemma VictorsShareAVoter(c: Cluster, v: Victory, w: Victory)
    requires VictoryOK(c, v) && VictoryOK(c, w) && OneVotePerTerm(c.votes) && v.term == w.term
    requires |c.hosts| % 2 == 1 || |c.hosts| == 2
    ensures v.name == w.name
  {
    assert |c.hosts| == |c.hosts.Keys|;
    LargeSubsetsMeet(v.quorum, w.quorum, c.hosts.Keys);
    var m :| m in v.quorum * w.quorum;
    assert Vote(m, v.term, v.name) in c.votes && Vote(m, w.term, w.name) in c.votes;
  }

  /** At most one node ever becomes leader in its campaign for a term, in clusters of odd size or of size 2. */
  lemma OneLeaderPerCampaignTerm(cs: seq<Cluster>, acts: seq<Action>, k: nat, v: Victory, w: Victory)
    requires IsRun(cs, acts) && TermsDoNotWrap(cs, acts) && VoteRepliesAreCurrent(cs, acts) && k < |cs|
    requires |cs[0].hosts| % 2 == 1 || |cs[0].hosts| == 2
    requires v in cs[k].victories && w in cs[k].victories && v.term == w.term
    ensures v.name == w.name
  {
    hide IsRun, TermsDoNotWrap, VoteRepliesAreCurrent, WellFormed, VictoryOK;
    RunKeepsCounted(cs, acts, k);
    assert |cs[k].hosts| == |cs[k].hosts.Keys| == |cs[0].hosts.Keys| == |cs[0].hosts|;
    VictorsShareAVoter(cs[k], v, w);
  }
}
