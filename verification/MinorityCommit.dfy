/**
 In which clusters a commit means that a strict majority has persisted the entry: the coded threshold
 lets a leader of every cluster of four or more commit what only a minority, or one half, holds.
 */
module MinorityCommit {
  import opened Common
  import opened RaftNode
  import opened Cluster
  import opened SoleLeader
  import opened Replication
  import opened Elections
  import opened DurableCommit
  import opened Runs

  /** The leader of term 1 with its first entry, which it believes these peers to hold. */
  function Believes(x: Name, members: set<Name>, votes: nat, holders: set<Name>): Node {
    Holding(Winner(x, members, votes)).(
      peers := map p | p in members - {x} :: if p in holders then Peer(1, 0) else Peer(0, -1))
  }

  function Commits(l: Node): Node {
    l.(commitIndex := 0, lastApplied := 0)
  }

  lemma BelievedCounts(x: Name, members: set<Name>, votes: nat, holders: set<Name>)
    requires x in members && holders <= members - {x}
    ensures var l := Believes(x, members, votes, holders);
            Matching(l.peers, 0) == holders && |l.peers| == |members| - 1
  {
    var l := Believes(x, members, votes, holders);
    assert l.peers.Keys == members - {x} && |l.peers| == |l.peers.Keys|;
    assert Matching(l.peers, 0) == holders;
  }

  /** The reply of one more peer commits the entry exactly when the coded threshold is met. */
  lemma ReplyCounts(x: Name, members: set<Name>, votes: nat, holders: set<Name>, y: Name)
    requires x in members && y in members - {x} - holders && holders <= members - {x}
    ensures var l, l' := Believes(x, members, votes, holders), Believes(x, members, votes, holders + {y});
            y in l.peers &&
            OnAppendReply(l, ReplyFrom(Voter(y, members)), false).node ==
              if 1 + |holders| + 1 >= (|members| - 1) / 2 then Commits(l') else l'
  {
    hide Pushes, Matching;
    var l, l' := Believes(x, members, votes, holders), Believes(x, members, votes, holders + {y});
    assert l.peers[y := Peer(1, 0)] == l'.peers;
    BelievedCounts(x, members, votes, holders + {y});
    assert |holders + {y}| == |holders| + 1;
  }

  lemma BelieverLeads(x: Name, members: set<Name>, votes: nat, holders: set<Name>)
    ensures Leads(Believes(x, members, votes, holders), x)
  {
  }

  /** The request with the first entry is on its way to each of these voters. */
  ghost predicate Offered(c: Cluster, x: Name, members: set<Name>, voters: set<Name>) {
    forall y <- voters :: At(c, y, Voter(y, members), 0) && RequestWithFirst(x, 2, y) in c.net
  }

  lemma OfferStays(c: Cluster, c': Cluster, changed: set<Name>, x: Name, members: set<Name>, voters: set<Name>)
    requires Only(c, c', changed, x) && Offered(c, x, members, voters) && changed * voters == {}
    ensures Offered(c', x, members, voters)
  {
    hide At;
    forall y <- voters ensures At(c', y, Voter(y, members), 0) && RequestWithFirst(x, 2, y) in c'.net {
      assert y !in changed * voters;
      StatesStay(c, c', changed, x, y, members);
    }
  }

  /** One after the other these voters take the entry and report it, the last reply committing it. */
  lemma {:induction false} Replicating(t: Trace, x: Name, votes: nat, holders: set<Name>, voters: set<Name>)
    returns (t': Trace)
    requires Real(t) && t.sole == Some(x) && x in t.members && voters <= t.members - {x} && holders <= t.members - {x}
    requires At(t.now, x, Believes(x, t.members, votes, holders), 0) && Offered(t.now, x, t.members, voters)
    requires voters != {} && holders * voters == {} && 1 + |holders + voters| == CommitNeeds(|t.members| - 1)
    ensures Real(t') && t'.members == t.members && t'.sole == t.sole && Only(t.now, t'.now, voters + {x}, x)
    ensures At(t'.now, x, Commits(Believes(x, t.members, votes, holders + voters)), 0)
    decreases |voters|
  {
    hide Real, At, Believes, Only, Leads, Receptive, OnAppendReply;
    var y :| y in voters;
    ReplyCounts(x, t.members, votes, holders, y);
    BelieverLeads(x, t.members, votes, holders);
    StatesAreReceptive(y, t.members);
    var s := FirstExchange(t, x, 2, y, Voter(y, t.members), Believes(x, t.members, votes, holders));
    var rest := voters - {y};
    assert |holders + voters| == |holders| + |voters| == |holders| + 1 + |rest|;
    assert holders + voters == holders + {y} + rest;
    if rest == {} {
      assert holders + voters == holders + {y} && voters + {x} == {x, y};
      t' := s;
    } else {
      OfferStays(t.now, s.now, {x, y}, x, t.members, rest);
      t' := Replicating(s, x, votes, holders + {y}, rest);
      OnlyTwice(t.now, s.now, t'.now, {x, y}, rest + {x}, voters + {x}, x);
    }
  }

  lemma BareStates(n: Name, members: set<Name>)
    ensures DiskLogs(Idle(n, members)) == [] && DiskLogs(Voter(n, members)) == []
  {
  }

  /** A leader, elected by these voters, has sent its first command; nobody else holds anything. */
  lemma FirstOffered(members: set<Name>, x: Name, voters: set<Name>) returns (t: Trace)
    requires x in members && voters <= members - {x} && voters != {} && |voters| == (|members| - 1) / 2
    ensures Real(t) && t.members == members && t.sole == Some(x)
    ensures At(t.now, x, Believes(x, members, |voters| + 1, {}), 0) && Offered(t.now, x, members, voters)
    ensures forall n <- members - {x} :: n in t.now.hosts && DiskLogs(t.now.hosts[n].node) == []
  {
    hide Real, Only, NewLeader, Winner, Holding, Idle, Voter, DiskLogs;
    var s := LeaderElected(members, x, voters, members);
    WinnerIsNewLeader(x, members, |voters| + 1);
    t := Sends(s, x, Winner(x, members, |voters| + 1));
    BelievesNothing(x, members, |voters| + 1);
    forall n <- members - {x}
      ensures n in t.now.hosts && DiskLogs(t.now.hosts[n].node) == []
      ensures n in voters ==> At(t.now, n, Voter(n, members), 0)
    {
      BareStates(n, members);
      StatesStay(s.now, t.now, {x}, x, n, members);
      assert n !in voters ==> n in members - voters - {x};
    }
  }

  lemma BelievesNothing(x: Name, members: set<Name>, votes: nat)
    ensures Holding(Winner(x, members, votes)) == Believes(x, members, votes, {})
  {
  }

  lemma CommitsIsCommit(x: Name, members: set<Name>, votes: nat, holders: set<Name>)
    ensures Commits(Believes(x, members, votes, holders)).commitIndex == 0
  {
  }

  /** Only where something happened is something held. */
  lemma HoldersAmong(c: Cluster, c': Cluster, changed: set<Name>, x: Name)
    requires Only(c, c', changed, x) && x in changed
    requires forall n <- c.hosts :: n != x ==> DiskLogs(c.hosts[n].node) == []
    ensures |Holders(c', 0)| <= |changed|
  {
    hide DiskLogs;
    assert Holders(c', 0) <= changed;
    SubsetIsSmaller(Holders(c', 0), changed);
  }

  /** At most half of the members hold the entry its leader committed. */
  lemma MinorityCommits(members: set<Name>) returns (t: Trace, x: Name)
    requires |members| >= 4
    ensures OrderedRun(t.cs, t.acts, x) && |t.cs| == |t.acts| + 1 && t.cs[0].hosts.Keys == members
    ensures t.cs[|t.acts|] == t.now && t.now.hosts.Keys == members
    ensures x in t.now.hosts && t.now.hosts[x].node.commitIndex == 0
    ensures 2 * |Holders(t.now, 0)| <= |members|
  {
    hide Real, OrderedRun, Believes, Only, Offered, Holders, DiskLogs, Commits;
    x :| x in members;
    assert |members - {x}| == |members| - 1;
    var voters := SubsetOfSize(members - {x}, (|members| - 1) / 2);
    var s := FirstOffered(members, x, voters);
    var takers := SubsetOfSize(voters, CommitNeeds(|members| - 1) - 1);
    assert Offered(s.now, x, members, takers) by { OfferOfFewer(s.now, x, members, voters, takers); }
    assert {} + takers == takers;
    t := Replicating(s, x, |voters| + 1, {}, takers);
    CommitsIsCommit(x, members, |voters| + 1, takers);
    TraceIsOrdered(s, x);
    TraceIsOrdered(t, x);
    HoldersAmong(s.now, t.now, takers + {x}, x);
    assert |takers + {x}| == |takers| + 1;
  }

  lemma OfferOfFewer(c: Cluster, x: Name, members: set<Name>, voters: set<Name>, fewer: set<Name>)
    requires Offered(c, x, members, voters) && fewer <= voters
    ensures Offered(c, x, members, fewer)
  {
  }

  // ---------- which clusters commit by majority ----------

  /** A strict majority has persisted everything the leader committed. */
  ghost predicate MajorityHolds(c: Cluster, leader: Name) {
    leader in c.hosts && c.hosts[leader].node.commitIndex >= 0 ==>
      2 * |Holders(c, c.hosts[leader].node.commitIndex)| > |c.hosts|
  }

  /** It does so at the end of every ordered run of these members, and so at every moment of every such run. */
  ghost predicate CommitsByMajority(members: set<Name>) {
    forall cs: seq<Cluster>, acts: seq<Action>, leader: Name ::
      |cs| == |acts| + 1 && OrderedRun(cs, acts, leader) && cs[0].hosts.Keys == members ==>
        MajorityHolds(cs[|acts|], leader)
  }

  /** Commits are held by a strict majority exactly in clusters of up to three. */
  lemma CommitsByMajorityExactly(members: set<Name>)
    requires members != {}
    ensures CommitsByMajority(members) <==> |members| <= 3
  {
    hide OrderedRun, Holders;
    if |members| <= 3 {
      forall cs: seq<Cluster>, acts: seq<Action>, leader: Name |
        |cs| == |acts| + 1 && OrderedRun(cs, acts, leader) && cs[0].hosts.Keys == members
        ensures MajorityHolds(cs[|acts|], leader)
      {
        RunKeepsReplicated(cs, acts, leader, |acts|);
        assert |cs[|acts|].hosts| == |cs[|acts|].hosts.Keys|;
        if leader in cs[|acts|].hosts && cs[|acts|].hosts[leader].node.commitIndex >= 0 {
          SmallClustersCommitByMajority(cs, acts, leader, |acts|);
        }
      }
    } else {
      var t, x := MinorityCommits(members);
      assert |t.now.hosts| == |t.now.hosts.Keys|;
      assert OrderedRun(t.cs, t.acts, x) && !MajorityHolds(t.cs[|t.acts|], x);
    }
  }
}
