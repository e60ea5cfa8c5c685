/**
 The exceptions to catching up in two exchanges are real. In one run of a, b and c, led by a, the leader
 ignores the success b reports, because c's already committed that entry. In another it takes that
 success into account, and then a refusal b sent before it was running. Either way it sends from index 0
 again, which b rejects.
 */
module StuckLeader {
  import opened Common
  import opened RaftNode
  import opened Cluster
  import opened Replication
  import opened CatchUp
  import opened Runs
  import opened RaftLog
  import opened SoleLeader

  const MEMBERS: set<Name> := {"a", "b", "c"}

  /** A running node that a leader of term 1 can reach. */
  predicate Reachable(n: Node) {
    n.running && n.role != Leader && n.currentTerm <= 1
  }

  lemma TraceLeads(t: Trace, x: Name, l: Node, f: Name)
    requires Real(t) && t.sole == Some(x) && At(t.now, x, l, 0) && l.role == Leader && f in t.members && f != x
    ensures Leading(t.now, x, f)
  {
    hide OrderedRun;
    TraceIsOrdered(t, x);
    RunIsLeading(t.cs, t.acts, x, f, |t.acts|);
  }

  lemma LoggingKeepsLead(l: Node, x: Name, cmd: string)
    requires Leads(l, x)
    ensures CanMint(l) && DoLog(l, cmd).node.role == Leader && DoLog(l, cmd).node.currentTerm == 1
    ensures DoLog(l, cmd).node.name == x && DoLog(l, cmd).node.running && DoLog(l, cmd).node.peers == l.peers
    ensures LastLogIndex(DoLog(l, cmd).node.logs) == LastLogIndex(l.logs) + 1
    ensures l.peers != map[] ==> DoLog(l, cmd).node.commitIndex == l.commitIndex
    ensures forall p <- DoLog(l, cmd).calls :: DoLog(l, cmd).calls[p].AppendAsk? ==>
            DoLog(l, cmd).calls[p].append.term == 1
  {
    hide Pushes;
  }

  /** The command of a leader starts a request to f. */
  lemma CommandCalls(t: Trace, x: Name, l: Node, f: Name, cmd: string)
    requires Real(t) && t.sole == Some(x) && At(t.now, x, l, 0) && Leads(l, x) && f in t.members && f != x
    ensures Allowed(t, Client(x, cmd)) && f in Calls(t.now.hosts[x], Client(x, cmd))
    ensures Calls(t.now.hosts[x], Client(x, cmd))[f].AppendAsk? && !Calls(t.now.hosts[x], Client(x, cmd))[f].isHeartbeat
    ensures Calls(t.now.hosts[x], Client(x, cmd))[f].append.term == 1 &&
            Calls(t.now.hosts[x], Client(x, cmd))[f].append.entries != []
  {
    hide Next, DoLog, Leading, IsRun, TermsDoNotWrap, VoteRepliesAreCurrent, HasSoleLeader, RequestsArriveInOrder,
         KeepsSoleLeader, LedOnlyBy;
    var a := Client(x, cmd);
    LoggingKeepsLead(l, x, cmd);
    LeadStays(t.now, a, x);
    TraceLeads(t, x, l, f);
    SendStep(t.now, a, x, f);
    CallIsNoHeartbeat(t.now.hosts[x], a, f);
  }

  lemma LogsCommand(t: Trace, x: Name, l: Node, f: Name, cmd: string) returns (t': Trace, r: Rpc)
    requires Real(t) && t.sole == Some(x) && At(t.now, x, l, 0) && Leads(l, x) && f in t.members && f != x
    ensures Enabled(t.now, Client(x, cmd)) && Real(t') && t' == Then(t, Client(x, cmd))
    ensures r in t'.now.net && t'.now.clock == t.now.clock + 1 && t.now.net <= t'.now.net
    ensures r.from == x && r.to == f && r.stamp == t.now.clock
    ensures f in Calls(t.now.hosts[x], Client(x, cmd)) && r.msg == Calls(t.now.hosts[x], Client(x, cmd))[f]
    ensures r.msg.AppendAsk? && r.msg.append.term == 1 && !r.msg.isHeartbeat && r.msg.append.entries != []
    ensures CanMint(l) && At(t'.now, x, DoLog(l, cmd).node, 0)
    ensures forall n <- t.now.hosts :: n != x ==> n in t'.now.hosts && t'.now.hosts[n] == t.now.hosts[n]
  {
    hide Real, Next, DoLog, KeepsLead, VotesCast, VictoriesWon, MintAfter, StoreAfter;
    var a, h := Client(x, cmd), t.now.hosts[x];
    CommandCalls(t, x, l, f, cmd);
    OneMoreStep(t, a);
    t' := Then(t, a);
    NextParts(t.now, a);
    r := Rpc(t.now.clock, x, f, Calls(h, a)[f]);
    assert r in Added(h, t.now.clock, a);
  }

  lemma CallIsNoHeartbeat(h: Host, a: Action, f: Name)
    requires Ready(h, a) && a.Client? && f in Calls(h, a) && Calls(h, a)[f].AppendAsk?
    ensures !Calls(h, a)[f].isHeartbeat
  {
    hide Pushes;
  }

  lemma ArrivalKeepsReachable(n: Node, q: AppendRequest)
    requires Reachable(n) && q.entries != [] && q.term == 1
    ensures Reachable(OnAppendRequest(n, q).0) && OnAppendRequest(n, q).0.currentTerm == n.currentTerm
    ensures OnAppendRequest(n, q).0.name == n.name
    ensures OnAppendRequest(n, q).1.name == n.name && OnAppendRequest(n, q).1.term == n.currentTerm
  {
    hide Splice;
  }

  /** A request with entries reaches a running node. */
  lemma Lands(t: Trace, x: Name, r: Rpc, node: Node, arrived: nat) returns (t': Trace)
    requires Real(t) && t.sole == Some(x) && r in t.now.net && r.to != x
    requires r.msg.AppendAsk? && r.msg.append.entries != [] && r.msg.append.term == 1 && !r.msg.isHeartbeat
    requires At(t.now, r.to, node, arrived) && arrived < r.stamp && Reachable(node)
    ensures Enabled(t.now, AppendArrives(r, false)) && Real(t') && t' == Then(t, AppendArrives(r, false))
    ensures t'.now.clock == t.now.clock
    ensures At(t'.now, r.to, OnAppendRequest(node, r.msg.append).0, r.stamp)
    ensures forall n <- t.now.hosts :: n != r.to ==> n in t'.now.hosts && t'.now.hosts[n] == t.now.hosts[n]
    ensures forall s <- t.now.net :: s != r ==> s in t'.now.net
    ensures r.(msg := AppendAnswer(r.msg.append, false, OnAppendRequest(node, r.msg.append).1)) in t'.now.net
  {
    hide Real, Next, OnAppendRequest;
    var a := AppendArrives(r, false);
    ArrivalKeepsReachable(node, r.msg.append);
    OneMoreStep(t, a);
    t' := Then(t, a);
    NextParts(t.now, a);
  }

  /** The leader logs a command and its request reaches f at once. */
  lemma SendsTo(t: Trace, x: Name, l: Node, f: Name, node: Node, arrived: nat, cmd: string) returns (t': Trace, r: Rpc)
    requires Real(t) && t.sole == Some(x) && At(t.now, x, l, 0) && Leads(l, x) && f in t.members && f != x
    requires At(t.now, f, node, arrived) && arrived < t.now.clock && Reachable(node) && node.name == f
    ensures Real(t') && t'.sole == t.sole && t'.members == t.members && Extends(t, t')
    ensures OrderedRun(t'.cs, t'.acts, x) && Delivers(t'.cs, t'.acts, x, f, |t.acts|, |t.acts| + 1)
    ensures |t'.acts| == |t.acts| + 2 && t'.cs[|t.acts| + 1].hosts.Keys == t.members
    ensures r.from == x && r.to == f && r.stamp == t.now.clock && t'.now.clock == t.now.clock + 1
    ensures r.msg.AppendAsk? && r.msg.append.term == 1 && !r.msg.isHeartbeat && r.msg.append.entries != []
    ensures t'.acts[|t.acts| + 1] == AppendArrives(r, false) && At(t'.cs[|t.acts| + 1], f, node, arrived)
    ensures Leading(t'.cs[|t.acts| + 1], x, f)
    ensures At(t'.now, x, DoLog(l, cmd).node, 0) && At(t'.now, f, OnAppendRequest(node, r.msg.append).0, t.now.clock)
    ensures r.(msg := AppendAnswer(r.msg.append, false, OnAppendRequest(node, r.msg.append).1)) in t'.now.net
    ensures forall s <- t.now.net :: s.stamp < t.now.clock ==> s in t'.now.net
  {
    hide Real, Next, OnAppendRequest, DoLog, Leading, OrderedRun, Calls, Ready;
    var s;
    LoggingKeepsLead(l, x, cmd);
    TraceIsOrdered(t, x);
    s, r := LogsCommand(t, x, l, f, cmd);
    SameHostAt(t.now, s.now, f);
    TraceIsOrdered(s, x);
    t' := Lands(s, x, r, node, arrived);
    SameHostAt(s.now, t'.now, x);
    TraceIsOrdered(t', x);
    TraceLeads(t, x, l, f);
    TraceLeads(s, x, DoLog(l, cmd).node, f);
  }

  lemma ThreeMembers(votes: nat)
    ensures |MEMBERS| == 3
    ensures Winner("a", MEMBERS, votes).peers == map["b" := Peer(0, -1), "c" := Peer(0, -1)]
    ensures |Winner("a", MEMBERS, votes).peers| == 2 && Leads(Winner("a", MEMBERS, votes), "a")
  {
    assert Winner("a", MEMBERS, votes).peers.Keys == {"b", "c"};
    assert |Winner("a", MEMBERS, votes).peers| == |Winner("a", MEMBERS, votes).peers.Keys|;
  }

  // ---------- the ignored success ----------

  function FirstLeader(): Node {
    Holding(Winner("a", MEMBERS, 2))
  }

  /** The reply of c commits the entry. */
  function Committed(): Node {
    FirstLeader().(peers := map["b" := Peer(0, -1), "c" := Peer(1, 0)], commitIndex := 0, lastApplied := 0)
  }

  lemma ReplyOfC()
    ensures "c" in FirstLeader().peers && Leads(FirstLeader(), "a")
    ensures OnAppendReply(FirstLeader(), AppendResponse("c", 1, true, 0, 1), false).node == Committed()
  {
    ThreeMembers(2);
    assert "c" in Matching(Committed().peers, 0);
  }

  /** The reply of b is then ignored: the leader is stuck and keeps next index 0 for b. */
  lemma ReplyOfB()
    ensures "b" in Committed().peers && Committed().peers["b"].nextIndex == 0 && Committed().role == Leader &&
            Leads(Committed(), "a")
    ensures Stuck(Committed(), "b", AppendResponse("b", 0, true, 0, 1))
    ensures OnAppendReply(Committed(), AppendResponse("b", 0, true, 0, 1), false).node == Committed()
  {
  }

  lemma FollowerFacts()
    ensures Receptive(Voter("c", MEMBERS)) && Voter("c", MEMBERS).name == "c"
    ensures ReplyFrom(Voter("c", MEMBERS)) == AppendResponse("c", 1, true, 0, 1)
    ensures Receptive(Idle("b", MEMBERS)) && Reachable(Idle("b", MEMBERS)) && Idle("b", MEMBERS).name == "b"
    ensures ReplyFrom(Idle("b", MEMBERS)) == AppendResponse("b", 0, true, 0, 1)
    ensures Reachable(Holding(Idle("b", MEMBERS))) && Holding(Idle("b", MEMBERS)).name == "b"
  {
    StatesAreReceptive("b", MEMBERS);
    StatesAreReceptive("c", MEMBERS);
  }

  /** a leads, elected by c, and its first command is on its way to the others; b is up or not. */
  lemma FirstSent(up: set<Name>) returns (t: Trace)
    requires {"a", "c"} <= up <= MEMBERS
    ensures Real(t) && t.members == MEMBERS && t.sole == Some("a") && t.now.clock == 3
    ensures At(t.now, "a", FirstLeader(), 0) && At(t.now, "c", Voter("c", MEMBERS), 0)
    ensures if "b" in up then IsIdle(t.now, "b", MEMBERS) else IsFresh(t.now, "b", MEMBERS)
    ensures RequestWithFirst("a", 2, "b") in t.now.net && RequestWithFirst("a", 2, "c") in t.now.net
  {
    hide Real, At, IsIdle, IsFresh, Winner, Voter, NewLeader;
    ThreeMembers(2);
    var s := LeaderElected(MEMBERS, "a", {"c"}, up);
    WinnerIsNewLeader("a", MEMBERS, 2);
    t := Sends(s, "a", Winner("a", MEMBERS, 2));
    StatesStay(s.now, t.now, {"a"}, "a", "b", MEMBERS);
    StatesStay(s.now, t.now, {"a"}, "a", "c", MEMBERS);
  }

  /** The entry of the first command is committed by c's reply; the request to b is still on its way. */
  lemma EntryCommitted() returns (t: Trace)
    ensures Real(t) && t.members == MEMBERS && t.sole == Some("a") && t.now.clock == 3
    ensures At(t.now, "a", Committed(), 0) && IsIdle(t.now, "b", MEMBERS)
    ensures RequestWithFirst("a", 2, "b") in t.now.net
  {
    hide Real, At, IsIdle, Committed, FirstLeader, Voter, Idle, OnAppendReply, Receptive, Leads, Reachable;
    var r := FirstSent(MEMBERS);
    FollowerFacts();
    ReplyOfC();
    t := FirstExchange(r, "a", 2, "c", Voter("c", MEMBERS), FirstLeader());
    StatesStay(r.now, t.now, {"a", "c"}, "a", "b", MEMBERS);
  }

  /** What makes a run one with two exchanges. */
  lemma MakesExchanges(cs: seq<Cluster>, acts: seq<Action>, x: Exchange, r: Rpc, node: Node, arrived: nat)
    requires OrderedRun(cs, acts, "a") && Delivers(cs, acts, "a", "b", x.send, x.second) && cs[0].hosts.Keys == MEMBERS
    requires x.arrival < x.reply < x.send < |acts| && |cs| == |acts| + 1
    requires Leading(cs[x.arrival], "a", "b") && At(cs[x.arrival], "b", node, arrived) && Reachable(node)
    requires acts[x.arrival] == AppendArrives(r, false) && r.to == "b"
    requires r.msg.AppendAsk? && r.msg.append.entries != [] && r.msg.append.term == 1 && !r.msg.isHeartbeat
    requires acts[x.reply] ==
             AppendReplyArrives(r.(msg := AppendAnswer(r.msg.append, false, OnAppendRequest(node, r.msg.append).1)))
    ensures TwoExchanges(cs, acts, "a", "b", x)
    ensures FirstAnswer(cs, acts, "b", x).reply == OnAppendRequest(node, r.msg.append).1
  {
    hide OnAppendRequest, Leading, OrderedRun;
    assert x.send < x.second < |acts|;
  }

  /** The last two steps were the arrival of the first request at b and its reply, which the leader ignored. */
  ghost predicate SuccessIgnored(t: Trace) {
    var k := |t.acts| - 2;
    && k >= 0 && |t.cs| == |t.acts| + 1
    && t.acts[k] == AppendArrives(RequestWithFirst("a", 2, "b"), false)
    && t.acts[k + 1] == AppendReplyArrives(ReplyToFirst("a", 2, "b", AppendResponse("b", 0, true, 0, 1)))
    && At(t.cs[k], "b", Idle("b", MEMBERS), 0) && Leading(t.cs[k], "a", "b")
    && At(t.cs[k + 1], "a", Committed(), 0)
    && At(t.now, "a", Committed(), 0) && At(t.now, "b", Holding(Idle("b", MEMBERS)), 2)
    && t.sole == Some("a") && t.members == MEMBERS && t.now.clock == 3 && Real(t)
  }

  lemma FirstExchangeIgnored() returns (t: Trace)
    ensures SuccessIgnored(t)
  {
    hide Real, At, Committed, Idle, OnAppendReply, Holding, Leads, Leading, Next, Receptive, ReplyFrom, Reachable;
    var r := EntryCommitted();
    FollowerFacts();
    ReplyOfB();
    assert At(r.now, "b", Idle("b", MEMBERS), 0);
    t := FirstExchange(r, "a", 2, "b", Idle("b", MEMBERS), Committed());
    assert |r.cs| == |r.acts| + 1 && r.cs[|r.acts|] == r.now by { TraceIsOrdered(r, "a"); }
    TraceLeads(r, "a", Committed(), "b");
  }

  /** Two exchanges with b, the leader being stuck when it processes the first reply. */
  lemma StuckRun() returns (t: Trace, x: Exchange)
    ensures Real(t) && t.sole == Some("a") && OrderedRun(t.cs, t.acts, "a")
    ensures TwoExchanges(t.cs, t.acts, "a", "b", x) && Undisturbed(t.acts, "b", x)
    ensures At(t.cs[x.reply], "a", Committed(), 0)
    ensures FirstAnswer(t.cs, t.acts, "b", x).reply == AppendResponse("b", 0, true, 0, 1)
  {
    hide Real, Committed, Idle, OnAppendRequest, Leads, OrderedRun, Delivers, Leading, Next, Reachable, DoLog, At,
         Holding;
    var s := FirstExchangeIgnored();
    FollowerFacts();
    ReplyOfB();
    var k := |s.acts|;
    var q;
    t, q := SendsTo(s, "a", Committed(), "b", Holding(Idle("b", MEMBERS)), 2, "put k w");
    x := Exchange(k - 2, k - 1, k, k + 1);
    assert t.cs[k - 2] == s.cs[k - 2] && t.cs[k - 1] == s.cs[k - 1];
    TraceIsOrdered(t, "a");
    FirstArrival(Idle("b", MEMBERS), "a");
    MakesExchanges(t.cs, t.acts, x, RequestWithFirst("a", 2, "b"), Idle("b", MEMBERS), 0);
  }

  /** So two exchanges under a sole leader and with ordered requests do not always catch up. */
  lemma TwoExchangesCanFail() returns (t: Trace, x: Exchange)
    ensures OrderedRun(t.cs, t.acts, "a") && TwoExchanges(t.cs, t.acts, "a", "b", x) && Undisturbed(t.acts, "b", x)
    ensures "b" in t.cs[x.second + 1].hosts && "a" in t.cs[x.send + 1].hosts
    ensures DiskLogs(t.cs[x.second + 1].hosts["b"].node) != t.cs[x.send + 1].hosts["a"].node.logs
  {
    hide OrderedRun, TwoExchanges, Undisturbed, Committed, Real;
    t, x := StuckRun();
    ReplyOfB();
    UndisturbedExchangeCatchesUpExactly(t.cs, t.acts, "a", "b", x);
  }

  // ---------- the stale refusal ----------

  /** The refusal of a node that was not running. */
  function Refusal(): AppendResponse {
    AppendResponse("b", 0, false, -1, 0)
  }

  /** The first request reaches b before it runs; its refusal is on its way, and then b starts. */
  lemma RefusalSent() returns (t: Trace)
    ensures Real(t) && t.members == MEMBERS && t.sole == Some("a") && t.now.clock == 3
    ensures At(t.now, "a", FirstLeader(), 0) && At(t.now, "b", Idle("b", MEMBERS), 2)
    ensures ReplyToFirst("a", 2, "b", Refusal()) in t.now.net
  {
    hide Real, Next, FirstLeader, Splice;
    var r := FirstSent({"a", "c"});
    var a := AppendArrives(RequestWithFirst("a", 2, "b"), false);
    assert OnAppendRequest(r.now.hosts["b"].node, FirstRequest("a")) == (r.now.hosts["b"].node, Refusal());
    OneMoreStep(r, a);
    var s := Then(r, a);
    NextParts(r.now, a);
    assert Answer(r.now.hosts["b"], a) == Some(AppendAnswer(FirstRequest("a"), false, Refusal()));
    t := Wakes(s, "b");
    SameHostAt(r.now, t.now, "a");
  }

  /** The leader after its second command. */
  function SecondLeader(): Node {
    assert CanMint(FirstLeader());
    DoLog(FirstLeader(), "put k w").node
  }

  lemma LeaderFacts()
    ensures Leads(FirstLeader(), "a") && CanMint(FirstLeader())
    ensures Leads(SecondLeader(), "a") && "b" in SecondLeader().peers && SecondLeader().commitIndex == -1
  {
    ThreeMembers(2);
    LoggingKeepsLead(FirstLeader(), "a", "put k w");
  }

  /** The leader takes the refusal as news, whatever it knew. */
  lemma RefusalResets(l: Node)
    requires Leads(l, "a") && "b" in l.peers
    ensures var l' := OnAppendReply(l, Refusal(), false).node; "b" in l'.peers && l'.peers["b"].nextIndex == 0
  {
  }

  function AnswerOfB(q: AppendRequest): AppendResponse {
    OnAppendRequest(Idle("b", MEMBERS), q).1
  }

  function AfterAnswer(q: AppendRequest): Node {
    OnAppendRequest(Idle("b", MEMBERS), q).0
  }

  /** The last step was the arrival of the second request q at b, and the refusal is still on its way. */
  ghost predicate SecondLanded(t: Trace, q: Rpc) {
    && Real(t) && t.sole == Some("a") && t.members == MEMBERS && t.now.clock == 4
    && |t.acts| > 0 && |t.cs| == |t.acts| + 1 && t.acts[|t.acts| - 1] == AppendArrives(q, false)
    && q.from == "a" && q.to == "b" && q.stamp == 3
    && q.msg.AppendAsk? && q.msg.append.entries != [] && q.msg.append.term == 1 && !q.msg.isHeartbeat
    && At(t.cs[|t.acts| - 1], "b", Idle("b", MEMBERS), 2) && Leading(t.cs[|t.acts| - 1], "a", "b")
    && At(t.now, "a", SecondLeader(), 0) && At(t.now, "b", AfterAnswer(q.msg.append), 3)
    && q.(msg := AppendAnswer(q.msg.append, false, AnswerOfB(q.msg.append))) in t.now.net
    && ReplyToFirst("a", 2, "b", Refusal()) in t.now.net
  }

  lemma SecondRequestLands() returns (t: Trace, q: Rpc)
    ensures SecondLanded(t, q)
  {
    hide Real, FirstLeader, Idle, DoLog, OnAppendRequest, Leads, Reachable, OrderedRun, Delivers, Leading, Next, Calls,
         At;
    FollowerFacts();
    LeaderFacts();
    var r := RefusalSent();
    t, q := SendsTo(r, "a", FirstLeader(), "b", Idle("b", MEMBERS), 2, "put k w");
    TraceIsOrdered(t, "a");
  }

  lemma StillPeer(l: Node, reply: AppendResponse)
    requires reply.name in l.peers
    ensures reply.name in OnAppendReply(l, reply, false).node.peers
  {
    hide Pushes, Matching;
  }

  /** The leader processes two replies one after the other; another node stays as it is. */
  lemma ProcessesTwo(t: Trace, x: Name, l: Node, l': Node, r: Rpc, s: Rpc, y: Name, node: Node, arrived: nat)
    returns (t': Trace)
    requires Real(t) && t.sole == Some(x) && x in t.members && At(t.now, x, l, 0) && Leads(l, x) && r != s
    requires r in t.now.net && r.from == x && r.to == y && r.msg.AppendAnswer? && !r.msg.isHeartbeat &&
             r.msg.reply.name == y && r.msg.reply.term <= 1
    requires s in t.now.net && s.from == x && s.to == y && s.msg.AppendAnswer? && !s.msg.isHeartbeat &&
             s.msg.reply.name == y && s.msg.reply.term <= 1
    requires y in l.peers && y != x && At(t.now, y, node, arrived) && y in t.members
    requires l' == OnAppendReply(l, r.msg.reply, false).node
    ensures Real(t') && t'.members == t.members && t'.sole == t.sole && t'.now.clock == t.now.clock
    ensures t'.acts == t.acts + [AppendReplyArrives(r), AppendReplyArrives(s)] && t.cs <= t'.cs
    ensures At(t'.now, y, node, arrived) && y in l'.peers
    ensures At(t'.now, x, OnAppendReply(l', s.msg.reply, false).node, 0) &&
            Leads(OnAppendReply(l', s.msg.reply, false).node, x)
    ensures Leads(l', x)
  {
    hide Real, Next, At, Leads, OnAppendReply, Only;
    StillPeer(l, r.msg.reply);
    var u := Processes(t, x, l, r);
    t' := Processes(u, x, l', s);
    MembersOf(t);
    MembersOf(u);
    SameHostAt(t.now, u.now, y);
    SameHostAt(u.now, t'.now, y);
  }

  /** The leader processes the answer to q and then the refusal. */
  lemma AnswerThenRefusal(s: Trace, q: Rpc) returns (t: Trace, l: Node)
    requires SecondLanded(s, q)
    ensures Real(t) && t.sole == Some("a") && t.members == MEMBERS && t.now.clock == 4
    ensures |t.cs| == |t.acts| + 1 && |t.acts| == |s.acts| + 2 && Extends(s, t)
    ensures t.acts[|s.acts|] ==
            AppendReplyArrives(q.(msg := AppendAnswer(q.msg.append, false, AnswerOfB(q.msg.append))))
    ensures t.cs[|t.acts|] == t.now && At(t.now, "b", AfterAnswer(q.msg.append), 3)
    ensures At(t.now, "a", l, 0) && Leads(l, "a") && "b" in l.peers && l.peers["b"].nextIndex == 0
  {
    hide Real, SecondLeader, Idle, OnAppendReply, OnAppendRequest, Leads, Leading, Next, At, Only, Reachable;
    FollowerFacts();
    LeaderFacts();
    ArrivalKeepsReachable(Idle("b", MEMBERS), q.msg.append);
    var answer := AnswerOfB(q.msg.append);
    var k := OnAppendReply(SecondLeader(), answer, false).node;
    t := ProcessesTwo(s, "a", SecondLeader(), k, q.(msg := AppendAnswer(q.msg.append, false, answer)),
                      ReplyToFirst("a", 2, "b", Refusal()), "b", AfterAnswer(q.msg.append), 3);
    RefusalResets(k);
    l := OnAppendReply(k, Refusal(), false).node;
    TraceIsOrdered(t, "a");
  }

  /** Two exchanges with b; the leader is not stuck, but processes the refusal before the second send. */
  lemma StaleRun() returns (t: Trace, x: Exchange)
    ensures Real(t) && t.sole == Some("a") && OrderedRun(t.cs, t.acts, "a")
    ensures TwoExchanges(t.cs, t.acts, "a", "b", x)
    ensures At(t.cs[x.reply], "a", SecondLeader(), 0)
    ensures exists l :: At(t.cs[x.send], "a", l, 0) && "b" in l.peers && l.peers["b"].nextIndex == 0
  {
    hide Real, SecondLeader, Idle, OnAppendRequest, Leads, OrderedRun, Delivers, Leading, Reachable, DoLog, At, Next;
    var s, q := SecondRequestLands();
    var u, l := AnswerThenRefusal(s, q);
    FollowerFacts();
    ArrivalKeepsReachable(Idle("b", MEMBERS), q.msg.append);
    var p;
    t, p := SendsTo(u, "a", l, "b", AfterAnswer(q.msg.append), 3, "put k x");
    TraceIsOrdered(s, "a");
    TraceIsOrdered(t, "a");
    var k := |s.acts|;
    x := Exchange(k - 1, k, k + 2, k + 3);
    assert t.cs[k - 1] == s.cs[k - 1] && t.cs[k] == s.now && t.cs[k + 2] == u.now;
    MakesExchanges(t.cs, t.acts, x, q, Idle("b", MEMBERS), 2);
  }

  /** So a stale refusal defeats two exchanges even when the leader was not stuck. */
  lemma StaleRefusalCanFail() returns (t: Trace, x: Exchange)
    ensures OrderedRun(t.cs, t.acts, "a") && TwoExchanges(t.cs, t.acts, "a", "b", x)
    ensures "a" in t.cs[x.reply].hosts && "b" in t.cs[x.reply].hosts["a"].node.peers
    ensures !Stuck(t.cs[x.reply].hosts["a"].node, "b", FirstAnswer(t.cs, t.acts, "b", x).reply)
    ensures "b" in t.cs[x.second + 1].hosts && "a" in t.cs[x.send + 1].hosts
    ensures DiskLogs(t.cs[x.second + 1].hosts["b"].node) != t.cs[x.send + 1].hosts["a"].node.logs
  {
    hide OrderedRun, TwoExchanges, SecondLeader, Real;
    t, x := StaleRun();
    LeaderFacts();
    HoldsFromFirstArrival(t.cs, t.acts, "a", "b", x);
    SecondExchangeCatchesUpExactly(t.cs, t.acts, "a", "b", x);
  }
}
