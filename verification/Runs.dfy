/**
 Building runs: the steps with which the counterexamples are put together, from fresh members through an
 election to the replication of a first command.
 */
module Runs {
  import opened Common
  import opened RaftLog
  import opened RaftNode
  import opened Cluster
  import opened Replication

  /** A run of these members so far, with the cluster it ends in; under a sole leader when one is named. */
  datatype Trace = Trace(members: set<Name>, sole: Option<Name>, cs: seq<Cluster>, acts: seq<Action>, now: Cluster)

  /** Terms do not wrap and vote replies are current; a named leader is sole, and gets its requests through in order. */
  ghost predicate Real(t: Trace) {
    && |t.cs| == |t.acts| + 1 && t.cs[|t.acts|] == t.now
    && IsRun(t.cs, t.acts) && TermsDoNotWrap(t.cs, t.acts) && VoteRepliesAreCurrent(t.cs, t.acts)
    && t.cs[0].hosts.Keys == t.members && t.now.hosts.Keys == t.members
    && (t.sole.Some? ==>
          && t.sole.value in t.members && LedOnlyBy(t.now, t.sole.value)
          && HasSoleLeader(t.cs, t.acts, t.sole.value) && RequestsArriveInOrder(t.cs, t.acts))
  }

  lemma TraceIsOrdered(t: Trace, x: Name)
    requires Real(t) && t.sole == Some(x)
    ensures OrderedRun(t.cs, t.acts, x) && |t.cs| == |t.acts| + 1 && t.cs[|t.acts|] == t.now
    ensures t.cs[0].hosts.Keys == t.members && t.now.hosts.Keys == t.members
  {
  }

  predicate LedOnlyBy(c: Cluster, leader: Name) {
    forall n <- c.hosts :: c.hosts[n].node.role == Leader ==> n == leader
  }

  /** The step makes nobody else leader, does not unseat the leader, and delivers in order. */
  predicate KeepsLead(c: Cluster, a: Action, leader: Name)
    requires Enabled(c, a)
  {
    var h := c.hosts[Subject(a)];
    && ArrivesInOrder(c, a)
    && if Subject(a) == leader then h.node.role == Leader ==> NodeAfter(h, a).role == Leader
       else NodeAfter(h, a).role != Leader
  }

  predicate Allowed(t: Trace, a: Action) {
    && Enabled(t.now, a) && TermDoesNotWrap(t.now, a) && VoteReplyIsCurrent(t.now, a)
    && (t.sole.Some? ==> KeepsLead(t.now, a, t.sole.value))
  }

  ghost function Then(t: Trace, a: Action): Trace
    requires Enabled(t.now, a)
  {
    t.(cs := t.cs + [Next(t.now, a)], acts := t.acts + [a], now := Next(t.now, a))
  }

  lemma LeadStays(c: Cluster, a: Action, leader: Name)
    requires LedOnlyBy(c, leader) && Enabled(c, a) && KeepsLead(c, a, leader)
    ensures KeepsSoleLeader(c, Next(c, a), leader) && LedOnlyBy(Next(c, a), leader)
  {
    hide Next, NodeAfter, HostAfter, Ready, Added, Removed, Calls, StoreAfter, CountedAfter, VotesCast, VictoriesWon,
         MintAfter, ArrivesInOrder;
    NextParts(c, a);
  }

  lemma RunGrows(cs: seq<Cluster>, acts: seq<Action>, c: Cluster, a: Action)
    requires |cs| == |acts| + 1 && cs[|acts|] == c && IsRun(cs, acts) && Enabled(c, a)
    requires TermsDoNotWrap(cs, acts) && VoteRepliesAreCurrent(cs, acts) && TermDoesNotWrap(c, a) &&
             VoteReplyIsCurrent(c, a)
    ensures IsRun(cs + [Next(c, a)], acts + [a])
    ensures TermsDoNotWrap(cs + [Next(c, a)], acts + [a]) && VoteRepliesAreCurrent(cs + [Next(c, a)], acts + [a])
  {
    hide Next, Enabled, Init, TermDoesNotWrap, VoteReplyIsCurrent;
  }

  lemma SoleRunGrows(cs: seq<Cluster>, acts: seq<Action>, c: Cluster, a: Action, leader: Name)
    requires |cs| == |acts| + 1 && cs[|acts|] == c && Enabled(c, a)
    requires HasSoleLeader(cs, acts, leader) && RequestsArriveInOrder(cs, acts)
    requires KeepsSoleLeader(c, Next(c, a), leader) && ArrivesInOrder(c, a)
    ensures HasSoleLeader(cs + [Next(c, a)], acts + [a], leader) && RequestsArriveInOrder(cs + [Next(c, a)], acts + [a])
  {
    hide Next, Enabled, KeepsSoleLeader, ArrivesInOrder;
  }

  lemma MembersStay(c: Cluster, a: Action)
    requires Enabled(c, a)
    ensures Next(c, a).hosts.Keys == c.hosts.Keys
  {
    hide Next, HostAfter, Ready, NodeAfter, StoreAfter, Calls, Added, VotesCast, VictoriesWon, MintAfter;
    NextParts(c, a);
  }

  lemma OneMoreStep(t: Trace, a: Action)
    requires Real(t) && Allowed(t, a)
    ensures Real(Then(t, a))
  {
    hide Next, Enabled, IsRun, TermsDoNotWrap, VoteRepliesAreCurrent, HasSoleLeader, RequestsArriveInOrder, LedOnlyBy,
         TermDoesNotWrap, VoteReplyIsCurrent;
    RunGrows(t.cs, t.acts, t.now, a);
    MembersStay(t.now, a);
    if t.sole.Some? {
      LeadStays(t.now, a, t.sole.value);
      SoleRunGrows(t.cs, t.acts, t.now, a, t.sole.value);
    }
  }

  // ---------- the states of the members ----------

  /** A running node that has seen nothing yet. */
  function Idle(n: Name, members: set<Name>): Node {
    Boot(n, members - {n}, None).(running := true)
  }

  /** Its first campaign, with that many votes. */
  function Campaigner(n: Name, members: set<Name>, votes: nat): Node {
    Dump(Idle(n, members).(role := Candidate, currentTerm := 1, votesReceived := votes, votedFor := n))
  }

  function Winner(n: Name, members: set<Name>, votes: nat): Node {
    Campaigner(n, members, votes).(role := Leader)
  }

  /** An idle node that has voted in term 1. */
  function Voter(n: Name, members: set<Name>): Node {
    Dump(Idle(n, members).(currentTerm := 1))
  }

  predicate IsFresh(c: Cluster, n: Name, members: set<Name>) {
    n in c.hosts && c.hosts[n] == FreshHost(n, members)
  }

  predicate At(c: Cluster, n: Name, node: Node, arrived: nat) {
    n in c.hosts && c.hosts[n].node == node && c.hosts[n].born == 0 && c.hosts[n].arrived == arrived
  }

  predicate IsIdle(c: Cluster, n: Name, members: set<Name>) {
    At(c, n, Idle(n, members), 0)
  }

  predicate IsCampaigning(c: Cluster, n: Name, members: set<Name>, voters: set<Name>) {
    At(c, n, Campaigner(n, members, |voters|), 0) && c.hosts[n].campaign == 1 && c.hosts[n].counted == voters
  }

  function FirstVoteRequest(x: Name, members: set<Name>): VoteRequest {
    VoteRequestOf(Campaigner(x, members, 1))
  }

  function RequestTo(x: Name, members: set<Name>, stamp: nat, y: Name): Rpc {
    Rpc(stamp, x, y, VoteAsk(FirstVoteRequest(x, members)))
  }

  function GrantOf(x: Name, members: set<Name>, stamp: nat, y: Name): Rpc {
    Rpc(stamp, x, y, VoteAnswer(FirstVoteRequest(x, members), VoteResponse(y, 0, true)))
  }

  /** The request of x is on its way to each of these idle nodes. */
  ghost predicate Asks(c: Cluster, x: Name, members: set<Name>, stamp: nat, voters: set<Name>) {
    forall y <- voters :: IsIdle(c, y, members) && RequestTo(x, members, stamp, y) in c.net
  }

  /** Nothing happened but at these hosts and to calls of x to them. */
  ghost predicate Only(c: Cluster, c': Cluster, changed: set<Name>, x: Name) {
    && c'.hosts.Keys == c.hosts.Keys
    && (forall m <- c.hosts :: m !in changed ==> c'.hosts[m] == c.hosts[m])
    && (forall r <- c.net :: r.from != x || r.to !in changed ==> r in c'.net)
    && c.victories <= c'.victories
  }

  lemma StatesStay(c: Cluster, c': Cluster, changed: set<Name>, x: Name, m: Name, members: set<Name>)
    requires Only(c, c', changed, x) && m !in changed
    ensures IsFresh(c, m, members) ==> IsFresh(c', m, members)
    ensures IsIdle(c, m, members) ==> IsIdle(c', m, members)
    ensures forall voters :: IsCampaigning(c, m, members, voters) ==> IsCampaigning(c', m, members, voters)
    ensures forall node, arrived :: At(c, m, node, arrived) ==> At(c', m, node, arrived)
  {
    hide Idle, Campaigner;
  }

  /** A step elsewhere leaves a campaign and the nodes it asked as they are. */
  lemma CampaignStays(c: Cluster, c': Cluster, changed: set<Name>, x: Name, y: Name, members: set<Name>, stamp: nat,
    voters: set<Name>)
    requires Only(c, c', changed, x) && Asks(c, y, members, stamp, voters) && changed * voters == {}
    ensures Asks(c', y, members, stamp, voters)
  {
    hide IsIdle;
    forall m <- voters ensures IsIdle(c', m, members) && RequestTo(y, members, stamp, m) in c'.net {
      assert m !in changed * voters;
      StatesStay(c, c', changed, x, m, members);
    }
  }

  lemma OnlyTwice(c: Cluster, c': Cluster, c'': Cluster, s: set<Name>, t: set<Name>, u: set<Name>, x: Name)
    requires Only(c, c', s, x) && Only(c', c'', t, x) && s <= u && t <= u
    ensures Only(c, c'', u, x)
  {
  }

  /** A delivery concerns its host and calls to its target only. */
  lemma DeliveryIsOnly(c: Cluster, a: Action)
    requires Enabled(c, a) && IsDelivery(a)
    ensures Only(c, Next(c, a), {Subject(a), a.r.to}, a.r.from) && Next(c, a).clock == c.clock
    ensures forall m <- c.hosts :: m != Subject(a) ==> m in Next(c, a).hosts && Next(c, a).hosts[m] == c.hosts[m]
    ensures forall s <- c.net :: s != a.r ==> s in Next(c, a).net
  {
    hide Next, HostAfter, NodeAfter, StoreAfter, Ready, Added, VotesCast, VictoriesWon, MintAfter;
    NextParts(c, a);
  }

  // ---------- start and campaign ----------

  lemma FreshRun(members: set<Name>, sole: Option<Name>) returns (t: Trace)
    requires sole.Some? ==> sole.value in members
    ensures Real(t) && t.members == members && t.sole == sole && t.acts == [] && t.now.clock == 1
    ensures forall n <- members :: IsFresh(t.now, n, members)
  {
    var hosts := map n | n in members :: FreshHost(n, members);
    assert hosts.Keys == members;
    var c := Cluster(hosts, {}, 1, {}, {}, map[]);
    t := Trace(members, sole, [c], [], c);
  }

  lemma Wakes(t: Trace, n: Name) returns (t': Trace)
    requires Real(t) && n in t.members && At(t.now, n, Boot(n, t.members - {n}, None), t.now.hosts[n].arrived)
    ensures Real(t') && Enabled(t.now, Start(n)) && t' == Then(t, Start(n)) && t'.now.clock == t.now.clock
    ensures At(t'.now, n, Idle(n, t.members), t.now.hosts[n].arrived) && Only(t.now, t'.now, {n}, n)
    ensures t.now.net <= t'.now.net
  {
    hide Real;
    OneMoreStep(t, Start(n));
    t' := Then(t, Start(n));
  }

  /** These members are up, the others still fresh. */
  lemma {:induction false} AllIdle(members: set<Name>, sole: Option<Name>, up: set<Name>) returns (t: Trace)
    requires up <= members && (sole.Some? ==> sole.value in members)
    ensures Real(t) && t.members == members && t.sole == sole && t.now.clock == 1
    ensures forall n <- up :: IsIdle(t.now, n, members)
    ensures forall n <- members - up :: IsFresh(t.now, n, members)
  {
    hide Real, IsFresh, IsIdle, Next;
    if up == {} {
      t := FreshRun(members, sole);
    } else {
      var n :| n in up;
      var s := AllIdle(members, sole, up - {n});
      WakesFresh(s, n);
      t := Wakes(s, n);
      forall m <- members | m != n
        ensures IsFresh(s.now, m, members) ==> IsFresh(t.now, m, members)
        ensures IsIdle(s.now, m, members) ==> IsIdle(t.now, m, members)
      {
        StatesStay(s.now, t.now, {n}, n, m, members);
      }
      assert IsIdle(t.now, n, members) by { MakesIdle(t.now, n, members); }
    }
  }

  lemma WakesFresh(t: Trace, n: Name)
    requires IsFresh(t.now, n, t.members)
    ensures n in t.now.hosts && t.now.hosts[n].arrived == 0 && At(t.now, n, Boot(n, t.members - {n}, None), 0)
  {
  }

  lemma MakesIdle(c: Cluster, n: Name, members: set<Name>)
    requires At(c, n, Idle(n, members), 0)
    ensures IsIdle(c, n, members)
  {
  }

  lemma CampaignCalls(x: Name, members: set<Name>, y: Name)
    requires x in members && y in members && x != y
    ensures var e := OnTimer(Idle(x, members), false, true, false);
            && e.node == Campaigner(x, members, 1)
            && y in e.calls && e.calls[y] == VoteAsk(FirstVoteRequest(x, members))
  {
    assert y in Idle(x, members).peers;
  }

  lemma StateFacts(n: Name, members: set<Name>, votes: nat)
    ensures var i := Idle(n, members); i.running && i.role == Follower && i.currentTerm == 0
    ensures var m := Campaigner(n, members, votes); m.running && m.role == Candidate && m.currentTerm == 1
  {
  }

  lemma Campaigning(t: Trace, x: Name, asked: set<Name>) returns (t': Trace)
    requires Real(t) && x in t.members && IsIdle(t.now, x, t.members)
    requires asked != {} && asked <= t.members - {x} && forall y <- asked :: IsIdle(t.now, y, t.members)
    ensures Real(t') && t'.members == t.members && t'.sole == t.sole && t'.now.clock == t.now.clock + 1
    ensures IsCampaigning(t'.now, x, t.members, {x})
    ensures Asks(t'.now, x, t.members, t.now.clock, asked) && Only(t.now, t'.now, {x}, x)
  {
    hide Real, OnTimer, Campaigner, Idle, Next, VotesCast, VictoriesWon, MintAfter;
    var a, c := Timer(x, false, true, false), t.now;
    forall y <- asked
      ensures OnTimer(Idle(x, t.members), false, true, false).node == Campaigner(x, t.members, 1)
      ensures Rpc(c.clock, x, y, VoteAsk(FirstVoteRequest(x, t.members))) in Added(c.hosts[x], c.clock, a)
    {
      CampaignCalls(x, t.members, y);
      assert Calls(c.hosts[x], a)[y] == VoteAsk(FirstVoteRequest(x, t.members));
    }
    var some :| some in asked;
    StateFacts(x, t.members, 1);
    OneMoreStep(t, a);
    t' := Then(t, a);
    NextParts(c, a);
  }

  // ---------- votes ----------

  /** The request of x reaches y, which grants it. */
  lemma Granting(t: Trace, x: Name, stamp: nat, y: Name) returns (t': Trace)
    requires Real(t) && x in t.members && y in t.members && x != y
    requires IsIdle(t.now, y, t.members) && RequestTo(x, t.members, stamp, y) in t.now.net
    ensures Real(t') && t'.members == t.members && t'.sole == t.sole && t'.now.clock == t.now.clock
    ensures GrantOf(x, t.members, stamp, y) in t'.now.net && Only(t.now, t'.now, {y}, x)
    ensures At(t'.now, y, Voter(y, t.members), 0)
  {
    hide Real, Next;
    var q := FirstVoteRequest(x, t.members);
    var a := VoteRequestArrives(RequestTo(x, t.members, stamp, y), false);
    assert OnVoteRequest(Idle(y, t.members), q) == (Voter(y, t.members), Some(VoteResponse(y, 0, true)));
    OneMoreStep(t, a);
    t' := Then(t, a);
    NextParts(t.now, a);
    assert Answer(t.now.hosts[y], a) == Some(VoteAnswer(q, VoteResponse(y, 0, true)));
  }

  lemma PeerCount(x: Name, members: set<Name>, votes: nat)
    requires x in members
    ensures |Campaigner(x, members, votes).peers| == |members| - 1
  {
    assert Campaigner(x, members, votes).peers.Keys == members - {x};
    assert |Campaigner(x, members, votes).peers| == |Campaigner(x, members, votes).peers.Keys|;
  }

  /** More than half of the peers are enough votes, its own included. */
  predicate Enough(votes: nat, members: set<Name>) {
    votes > (|members| - 1) / 2
  }

  function Counted(x: Name, members: set<Name>, votes: nat): Node {
    if Enough(votes, members) then Winner(x, members, votes) else Campaigner(x, members, votes)
  }

  lemma CountedVote(h: Host, a: Action, members: set<Name>, x: Name, votes: nat)
    requires x in members && h.node == Campaigner(x, members, votes) && Ready(h, a)
    requires a.VoteReplyArrives? && a.r.msg.granted.term == 0 && a.r.msg.granted.voteGranted
    ensures NodeAfter(h, a) == Counted(x, members, votes + 1)
  {
    PeerCount(x, members, votes);
  }

  function GrantArrives(x: Name, members: set<Name>, stamp: nat, y: Name): Action {
    VoteReplyArrives(GrantOf(x, members, stamp, y))
  }

  /** The delivery of a granting answer is a step of the run. */
  lemma GrantCanArrive(t: Trace, x: Name, voters: set<Name>, stamp: nat, y: Name)
    requires Real(t) && x in t.members && x != y && (t.sole.Some? ==> t.sole == Some(x))
    requires IsCampaigning(t.now, x, t.members, voters) && GrantOf(x, t.members, stamp, y) in t.now.net
    ensures Enabled(t.now, GrantArrives(x, t.members, stamp, y)) && Real(Then(t, GrantArrives(x, t.members, stamp, y)))
  {
    hide Real, Next, NodeAfter, Counted, Campaigner;
    var a := GrantArrives(x, t.members, stamp, y);
    CountedVote(t.now.hosts[x], a, t.members, x, |voters|);
    StateFacts(x, t.members, |voters|);
    StateFacts(x, t.members, 1);
    OneMoreStep(t, a);
  }

  /** How the answer is booked. */
  lemma AnswerCounted(h: Host, a: Action, x: Name, members: set<Name>, voters: set<Name>)
    requires Ready(h, a) && a.VoteReplyArrives? && a.r.to !in voters && a.r.from == x
    requires h.node == Campaigner(x, members, |voters|) && h.counted == voters
    requires NodeAfter(h, a) == Counted(x, members, |voters| + 1)
    ensures CountedAfter(h, a) == voters + {a.r.to} && |voters + {a.r.to}| == |voters| + 1
    ensures Wins(h, a) == Enough(|voters| + 1, members)
  {
    hide NodeAfter;
  }

  /** The answer is counted; with enough votes x is leader. */
  lemma Counting(t: Trace, x: Name, voters: set<Name>, stamp: nat, y: Name) returns (t': Trace)
    requires Real(t) && x in t.members && y in t.members && x != y && y !in voters &&
             (t.sole.Some? ==> t.sole == Some(x))
    requires IsCampaigning(t.now, x, t.members, voters) && GrantOf(x, t.members, stamp, y) in t.now.net
    ensures Real(t') && t'.members == t.members && t'.sole == t.sole && t'.now.clock == t.now.clock
    ensures Only(t.now, t'.now, {x, y}, x) && t.now.hosts.Keys == t.members
    ensures y in t.now.hosts && y in t'.now.hosts && t'.now.hosts[y] == t.now.hosts[y]
    ensures if Enough(|voters| + 1, t.members) then
              Victory(x, 1, voters + {y}) in t'.now.victories && At(t'.now, x, Winner(x, t.members, |voters| + 1), 0)
            else IsCampaigning(t'.now, x, t.members, voters + {y})
  {
    hide Real, Next, NodeAfter, CountedAfter, Wins, Enough, Only, Ready, Added, StoreAfter;
    var a := GrantArrives(x, t.members, stamp, y);
    GrantCanArrive(t, x, voters, stamp, y);
    t' := Then(t, a);
    NextParts(t.now, a);
    DeliveryIsOnly(t.now, a);
    CountedVote(t.now.hosts[x], a, t.members, x, |voters|);
    AnswerCounted(t.now.hosts[x], a, x, t.members, voters);
    MembersOf(t);
  }

  lemma MembersOf(t: Trace)
    requires Real(t)
    ensures t.now.hosts.Keys == t.members
  {
    hide IsRun, TermsDoNotWrap, VoteRepliesAreCurrent, HasSoleLeader, RequestsArriveInOrder, LedOnlyBy;
  }

  /** One node grants x and its vote is counted. */
  lemma VoteComesIn(t: Trace, x: Name, counted: set<Name>, stamp: nat, y: Name) returns (t': Trace)
    requires Real(t) && x in t.members && y in t.members && x != y && y !in counted &&
             (t.sole.Some? ==> t.sole == Some(x))
    requires IsCampaigning(t.now, x, t.members, counted) && IsIdle(t.now, y, t.members) &&
             RequestTo(x, t.members, stamp, y) in t.now.net
    ensures Real(t') && t'.members == t.members && t'.sole == t.sole && t'.now.clock == t.now.clock
    ensures Only(t.now, t'.now, {x, y}, x) && At(t'.now, y, Voter(y, t.members), 0)
    ensures if Enough(|counted| + 1, t.members) then
              Victory(x, 1, counted + {y}) in t'.now.victories && At(t'.now, x, Winner(x, t.members, |counted| + 1), 0)
            else IsCampaigning(t'.now, x, t.members, counted + {y})
  {
    hide Real, IsIdle, IsCampaigning, At, Winner, Voter, Enough, Only;
    var s := Granting(t, x, stamp, y);
    StatesStay(t.now, s.now, {y}, x, x, t.members);
    t' := Counting(s, x, counted, stamp, y);
    SameHostAt(s.now, t'.now, y);
    OnlyTwice(t.now, s.now, t'.now, {y}, {x, y}, {x, y}, x);
  }

  /** One after the other these nodes grant x, whose votes with theirs are just enough. */
  lemma {:induction false} Collecting(t: Trace, x: Name, counted: set<Name>, stamp: nat, voters: set<Name>)
    returns (t': Trace)
    requires Real(t) && x in t.members && voters <= t.members - {x} && (t.sole.Some? ==> t.sole == Some(x))
    requires IsCampaigning(t.now, x, t.members, counted) && Asks(t.now, x, t.members, stamp, voters)
    requires voters != {} && counted * voters == {} && |counted + voters| == (|t.members| - 1) / 2 + 1
    ensures Real(t') && t'.members == t.members && t'.sole == t.sole && t'.now.clock == t.now.clock
    ensures Only(t.now, t'.now, voters + {x}, x)
    ensures Victory(x, 1, counted + voters) in t'.now.victories
    ensures At(t'.now, x, Winner(x, t.members, |counted + voters|), 0)
    ensures forall y <- voters :: At(t'.now, y, Voter(y, t.members), 0)
    decreases |voters|
  {
    hide Real, IsIdle, IsCampaigning, At, Winner, Voter, Only;
    var y :| y in voters;
    var s := VoteComesIn(t, x, counted, stamp, y);
    var rest := voters - {y};
    assert |counted + voters| == |counted| + |voters| == |counted| + 1 + |rest|;
    assert counted + voters == counted + {y} + rest;
    if rest == {} {
      assert counted + voters == counted + {y} && voters == {y} && voters + {x} == {x, y};
      t' := s;
    } else {
      CampaignStays(t.now, s.now, {x, y}, x, x, t.members, stamp, rest);
      t' := Collecting(s, x, counted + {y}, stamp, rest);
      StatesStay(s.now, t'.now, rest + {x}, x, y, t.members);
      OnlyTwice(t.now, s.now, t'.now, {x, y}, rest + {x}, voters + {x}, x);
    }
  }

  lemma SameHostAt(c: Cluster, c': Cluster, n: Name)
    requires n in c.hosts && n in c'.hosts && c'.hosts[n] == c.hosts[n]
    ensures forall node, arrived :: At(c, n, node, arrived) ==> At(c', n, node, arrived)
  {
  }

  /** A sole leader of term 1, elected by just enough of the members that are up. */
  lemma LeaderElected(members: set<Name>, x: Name, voters: set<Name>, up: set<Name>) returns (t: Trace)
    requires x in up && up <= members && voters <= up - {x} && voters != {} && |voters| == (|members| - 1) / 2
    ensures Real(t) && t.members == members && t.sole == Some(x) && t.now.clock == 2
    ensures At(t.now, x, Winner(x, members, |voters| + 1), 0)
    ensures forall y <- voters :: At(t.now, y, Voter(y, members), 0)
    ensures forall y <- up - voters - {x} :: IsIdle(t.now, y, members)
    ensures forall y <- members - up :: IsFresh(t.now, y, members)
  {
    hide Real, IsFresh, IsIdle, IsCampaigning, At, Winner, Voter;
    var r := AllIdle(members, Some(x), up);
    var s := Campaigning(r, x, voters);
    assert |{x} + voters| == 1 + |voters|;
    t := Collecting(s, x, {x}, 1, voters);
    forall y <- members - voters - {x}
      ensures IsIdle(r.now, y, members) ==> IsIdle(t.now, y, members)
      ensures IsFresh(r.now, y, members) ==> IsFresh(t.now, y, members)
    {
      StatesStay(r.now, s.now, {x}, x, y, members);
      StatesStay(s.now, t.now, voters + {x}, x, y, members);
    }
  }

  // ---------- a first command ----------

  const COMMAND: string := "put k v"
  const FIRST_LOG: seq<LogEntry> := [LogEntry(0, 1, COMMAND)]

  function FirstRequest(x: Name): AppendRequest {
    AppendRequest(x, 1, -1, 0, -1, FIRST_LOG)
  }

  /** A leader of term 1 that has logged nothing. */
  predicate NewLeader(l: Node, x: Name, members: set<Name>) {
    && l.name == x && l.running && l.role == Leader && l.currentTerm == 1 && l.logs == []
    && l.commitIndex == -1 && l.lastApplied == -1 && l.peers == map p | p in members - {x} :: Peer(0, -1)
  }

  function Holding(n: Node): Node {
    Dump(n.(logs := FIRST_LOG))
  }

  function RequestWithFirst(x: Name, stamp: nat, y: Name): Rpc {
    Rpc(stamp, x, y, AppendAsk(FirstRequest(x), false))
  }

  function ReplyFrom(n: Node): AppendResponse {
    AppendResponse(n.name, n.currentTerm, true, 0, 1)
  }

  function ReplyToFirst(x: Name, stamp: nat, y: Name, reply: AppendResponse): Rpc {
    Rpc(stamp, x, y, AppendAnswer(FirstRequest(x), false, reply))
  }

  lemma WinnerIsNewLeader(x: Name, members: set<Name>, votes: nat)
    ensures NewLeader(Winner(x, members, votes), x, members)
  {
  }

  lemma FirstCommand(l: Node, x: Name, members: set<Name>)
    requires NewLeader(l, x, members) && members - {x} != {}
    ensures CanMint(l) && DoLog(l, COMMAND).node == Holding(l)
    ensures forall p <- members - {x} ::
              p in DoLog(l, COMMAND).calls && DoLog(l, COMMAND).calls[p] == AppendAsk(FirstRequest(x), false)
  {
    assert l.logs + [Minted(l, COMMAND)] == FIRST_LOG;
    var p :| p in members - {x};
    assert p in l.peers;
    EntriesFromSpec(FIRST_LOG, 0);
  }

  lemma Sends(t: Trace, x: Name, l: Node) returns (t': Trace)
    requires Real(t) && x in t.members && t.members - {x} != {} && t.sole == Some(x)
    requires At(t.now, x, l, 0) && NewLeader(l, x, t.members)
    ensures Real(t') && t'.members == t.members && t'.sole == t.sole && t'.now.clock == t.now.clock + 1
    ensures At(t'.now, x, Holding(l), 0) && Only(t.now, t'.now, {x}, x)
    ensures forall y <- t.members - {x} :: RequestWithFirst(x, t.now.clock, y) in t'.now.net
  {
    hide Real, Next, DoLog;
    var a, h := Client(x, COMMAND), t.now.hosts[x];
    FirstCommand(l, x, t.members);
    OneMoreStep(t, a);
    t' := Then(t, a);
    NextParts(t.now, a);
    var some :| some in t.members - {x};
    assert some in Calls(h, a);
    forall y <- t.members - {x} ensures RequestWithFirst(x, t.now.clock, y) in t'.now.net {
      assert Rpc(t.now.clock, x, y, Calls(h, a)[y]) in Added(h, t.now.clock, a);
    }
  }

  /** A running follower without a log, in term 0 or 1. */
  predicate Receptive(n: Node) {
    n.running && n.role != Leader && n.currentTerm <= 1 && n.logs == []
  }

  lemma StatesAreReceptive(n: Name, members: set<Name>)
    ensures Receptive(Idle(n, members)) && Idle(n, members).name == n
    ensures Receptive(Voter(n, members)) && Voter(n, members).name == n
  {
  }

  lemma FirstArrival(n: Node, x: Name)
    requires Receptive(n)
    ensures OnAppendRequest(n, FirstRequest(x)) == (Holding(n), ReplyFrom(n))
  {
    SpliceSpec([], 0, -1, FIRST_LOG);
  }

  /** The first request reaches y, which then holds its entry. */
  lemma Arrives(t: Trace, x: Name, stamp: nat, y: Name, node: Node) returns (t': Trace, a: Action)
    requires Real(t) && y in t.members && y != x && t.sole == Some(x) && stamp > 0
    requires At(t.now, y, node, 0) && Receptive(node) && node.name == y
    requires RequestWithFirst(x, stamp, y) in t.now.net
    ensures a == AppendArrives(RequestWithFirst(x, stamp, y), false) && Enabled(t.now, a)
    ensures Real(t') && t' == Then(t, a) && t'.now.clock == t.now.clock
    ensures At(t'.now, y, Holding(node), stamp) && Only(t.now, t'.now, {y}, x)
    ensures ReplyToFirst(x, stamp, y, ReplyFrom(node)) in t'.now.net
  {
    hide Real, Next, OnAppendRequest;
    a := AppendArrives(RequestWithFirst(x, stamp, y), false);
    FirstArrival(node, x);
    OneMoreStep(t, a);
    t' := Then(t, a);
    NextParts(t.now, a);
    assert Answer(t.now.hosts[y], a) == Some(AppendAnswer(FirstRequest(x), false, ReplyFrom(node)));
  }

  /** A replication reply reaches the leader, which stays leader. */
  lemma Replies(t: Trace, x: Name, r: Rpc, l: Node, l': Node) returns (t': Trace)
    requires Real(t) && x in t.members && t.sole == Some(x) && At(t.now, x, l, 0)
    requires r in t.now.net && r.from == x && r.msg.AppendAnswer? && !r.msg.isHeartbeat && r.msg.reply.name == r.to &&
             r.to in l.peers
    requires OnAppendReply(l, r.msg.reply, false).node == l' && l'.role == Leader
    ensures Enabled(t.now, AppendReplyArrives(r)) && Real(t') && t' == Then(t, AppendReplyArrives(r))
    ensures t'.now.clock == t.now.clock
    ensures At(t'.now, x, l', 0) && Only(t.now, t'.now, {x, r.to}, x)
    ensures forall m <- t.now.hosts :: m != x ==> m in t'.now.hosts && t'.now.hosts[m] == t.now.hosts[m]
    ensures forall s <- t.now.net :: s != r ==> s in t'.now.net
  {
    hide Real, Next, OnAppendReply;
    var a := AppendReplyArrives(r);
    OneMoreStep(t, a);
    t' := Then(t, a);
    NextParts(t.now, a);
  }

  /** A leader of term 1 with a short log. */
  predicate Leads(l: Node, x: Name) {
    l.name == x && Accepts(l) && l.currentTerm == 1 && LastLogIndex(l.logs) < 2
  }

  lemma ReplyKeepsLead(l: Node, reply: AppendResponse)
    requires l.role == Leader && reply.name in l.peers && reply.term <= l.currentTerm
    ensures OnAppendReply(l, reply, false).node.role == Leader &&
            reply.name in OnAppendReply(l, reply, false).node.peers
    ensures OnAppendReply(l, reply, false).node == l.(peers := OnAppendReply(l, reply, false).node.peers,
              commitIndex := OnAppendReply(l, reply, false).node.commitIndex,
                lastApplied := OnAppendReply(l, reply, false).node.lastApplied)
  {
    hide Pushes, Matching;
  }

  /** The leader processes a reply to one of its requests. */
  lemma Processes(t: Trace, x: Name, l: Node, r: Rpc) returns (t': Trace)
    requires Real(t) && t.sole == Some(x) && x in t.members && At(t.now, x, l, 0) && Leads(l, x)
    requires r in t.now.net && r.from == x && r.msg.AppendAnswer? && !r.msg.isHeartbeat
    requires r.msg.reply.name == r.to && r.to in l.peers && r.to != x && r.msg.reply.term <= 1
    ensures Real(t') && Enabled(t.now, AppendReplyArrives(r)) && t' == Then(t, AppendReplyArrives(r)) &&
            t'.now.clock == t.now.clock
    ensures At(t'.now, x, OnAppendReply(l, r.msg.reply, false).node, 0) &&
            Leads(OnAppendReply(l, r.msg.reply, false).node, x)
    ensures Only(t.now, t'.now, {x, r.to}, x)
    ensures forall m <- t.now.hosts :: m != x ==> m in t'.now.hosts && t'.now.hosts[m] == t.now.hosts[m]
    ensures forall s <- t.now.net :: s != r ==> s in t'.now.net
  {
    hide Real, Next, OnAppendReply, At;
    ReplyKeepsLead(l, r.msg.reply);
    t' := Replies(t, x, r, l, OnAppendReply(l, r.msg.reply, false).node);
  }

  ghost predicate Extends(t: Trace, t': Trace) {
    t.cs <= t'.cs && t.acts <= t'.acts
  }

  lemma OnlyInTwo(c: Cluster, c': Cluster, c'': Cluster, x: Name, y: Name)
    requires Only(c, c', {y}, x) && Only(c', c'', {x, y}, x)
    ensures Only(c, c'', {x, y}, x)
  {
  }

  /** The first request reaches y and its reply the leader. */
  lemma FirstExchange(t: Trace, x: Name, stamp: nat, y: Name, node: Node, l: Node) returns (t': Trace)
    requires Real(t) && t.sole == Some(x) && x in t.members && y in t.members && y != x && stamp > 0
    requires At(t.now, y, node, 0) && Receptive(node) && node.name == y
    requires At(t.now, x, l, 0) && Leads(l, x) && y in l.peers && RequestWithFirst(x, stamp, y) in t.now.net
    ensures Real(t') && t'.members == t.members && t'.sole == t.sole && t'.now.clock == t.now.clock
    ensures Only(t.now, t'.now, {x, y}, x)
    ensures At(t'.now, x, OnAppendReply(l, ReplyFrom(node), false).node, 0) &&
            Leads(OnAppendReply(l, ReplyFrom(node), false).node, x)
    ensures At(t'.now, y, Holding(node), stamp)
    ensures |t'.cs| == |t.cs| + 2 && t.cs <= t'.cs && At(t'.cs[|t.cs|], x, l, 0)
    ensures t'.acts == t.acts + [AppendArrives(RequestWithFirst(x, stamp, y), false),
                                 AppendReplyArrives(ReplyToFirst(x, stamp, y, ReplyFrom(node)))]
  {
    hide Real, Next, At, Leads, OnAppendReply, Holding, RequestWithFirst, Only;
    var s, a := Arrives(t, x, stamp, y, node);
    StatesStay(t.now, s.now, {y}, x, x, t.members);
    t' := Processes(s, x, l, ReplyToFirst(x, stamp, y, ReplyFrom(node)));
    MembersOf(s);
    MembersOf(t');
    SameHostAt(s.now, t'.now, y);
    OnlyInTwo(t.now, s.now, t'.now, x, y);
  }
}
