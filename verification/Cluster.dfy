/**
 A cluster of SRaft servers and the calls in flight between them. Every call is a detached thread of
 the calling process: it may be delayed, overtaken or lost, and it ends with its process. Requests may
 also be delivered again. The history fields (campaign, counted, arrived, written, votes, victories,
 minted) record events and never influence a step.
 */
module Cluster {
  import opened Common
  import opened MachineInts
  import opened RaftLog
  import opened RaftNode
  import opened Commands

  /** The key-value server around a node: the channel, what was taken from it, and the database. */
  datatype Store = Store(queue: seq<string>, applied: seq<string>, db: Database)

  const FRESH_STORE: Store := Store([], [], INITIAL_DB)

  /**
   born: calls stamped earlier belong to a previous process.
   campaign, counted: the term of this process' last election and the voters counted in it.
   arrived: the stamp of the last delivered request that carried entries.
   written: every command the node ever accepted, over all its processes.
   */
  datatype Host = Host(
    node: Node, store: Store, born: nat, campaign: Uint64, counted: set<Name>, arrived: nat, written: seq<string>)

  /** One thread: a request on its way to its target, or the answer on its way back. */
  datatype Rpc = Rpc(stamp: nat, from: Name, to: Name, msg: Msg)

  datatype Vote = Vote(voter: Name, term: Uint64, candidate: Name)
  /** A node became leader in its campaign for a term, with the votes of a quorum. */
  datatype Victory = Victory(name: Name, term: Uint64, quorum: set<Name>)
  datatype Key = Key(term: Uint64, index: Index)
  /** The command of a minted entry, and the entry its leader's log then ended with. */
  datatype Mint = Mint(data: string, parent: Option<Key>)

  datatype Cluster = Cluster(
    hosts: map<Name, Host>, net: set<Rpc>, clock: nat,
    votes: set<Vote>, victories: set<Victory>, minted: map<Key, Mint>)

  datatype Action =
    | Timer(n: Name, heartbeatDue: bool, electionDue: bool, electionFailDue: bool)
    | Client(n: Name, cmd: string)
    | VoteRequestArrives(r: Rpc, again: bool)
    | VoteReplyArrives(r: Rpc)
    | AppendArrives(r: Rpc, again: bool)
    | AppendReplyArrives(r: Rpc)
    | Lose(r: Rpc)
    | Crash(n: Name)
    | Start(n: Name)
    | Receive(n: Name)

  function KeyOf(e: LogEntry): Key {
    Key(e.term, e.index)
  }

  function LastKey(logs: seq<LogEntry>): Option<Key> {
    if logs == [] then None else Some(KeyOf(logs[|logs| - 1]))
  }

  /** The host a step takes place at. */
  function Subject(a: Action): Name {
    match a
    case Timer(n, _, _, _) => n
    case Client(n, _) => n
    case VoteRequestArrives(r, _) => r.to
    case VoteReplyArrives(r) => r.from
    case AppendArrives(r, _) => r.to
    case AppendReplyArrives(r) => r.from
    case Lose(r) => r.from
    case Crash(n) => n
    case Start(n) => n
    case Receive(n) => n
  }

  predicate IsDelivery(a: Action) {
    a.VoteRequestArrives? || a.VoteReplyArrives? || a.AppendArrives? || a.AppendReplyArrives? || a.Lose?
  }

  /** What the step needs of its host. An answer needs the process that made the call to be still there. */
  predicate Ready(h: Host, a: Action) {
    match a
    case Timer(_, _, _, _) => true
    case Client(_, _) => CanMint(h.node)
    case VoteRequestArrives(r, _) => r.msg.VoteAsk?
    case VoteReplyArrives(r) => r.msg.VoteAnswer? && r.stamp >= h.born
    case AppendArrives(r, _) => r.msg.AppendAsk?
    case AppendReplyArrives(r) => r.msg.AppendAnswer? && r.stamp >= h.born && r.msg.reply.name in h.node.peers
    case Lose(_) => true
    case Crash(_) => true
    case Start(_) => !h.node.running
    case Receive(_) => h.store.queue != []
  }

  predicate Enabled(c: Cluster, a: Action) {
    Subject(a) in c.hosts && (IsDelivery(a) ==> a.r in c.net) && Ready(c.hosts[Subject(a)], a)
  }

  // ---------- the parts of a step, each a function of its host alone ----------

  /** The node elects itself in this step. */
  predicate Campaigns(h: Host, a: Action) {
    a.Timer? && a.electionDue && h.node.running && h.node.role == Follower
  }

  function NodeAfter(h: Host, a: Action): Node
    requires Ready(h, a)
  {
    match a
    case Timer(_, hb, el, ef) => OnTimer(h.node, hb, el, ef).node
    case Client(_, cmd) => DoLog(h.node, cmd).node
    case VoteRequestArrives(r, _) => OnVoteRequest(h.node, r.msg.vote).0
    case VoteReplyArrives(r) => OnVoteReply(h.node, r.msg.granted)
    case AppendArrives(r, _) => OnAppendRequest(h.node, r.msg.append).0
    case AppendReplyArrives(r) => OnAppendReply(h.node, r.msg.reply, r.msg.isHeartbeat).node
    case Lose(_) => h.node
    case Crash(_) => Boot(h.node.name, h.node.peers.Keys, h.node.disk)
    case Start(_) => Run(h.node)
    case Receive(_) => h.node
  }

  function StoreAfter(h: Host, a: Action): Store
    requires Ready(h, a)
  {
    match a
    case Client(_, cmd) => h.store.(queue := h.store.queue + DoLog(h.node, cmd).pushed)
    case AppendReplyArrives(r) =>
      h.store.(queue := h.store.queue + OnAppendReply(h.node, r.msg.reply, r.msg.isHeartbeat).pushed)
    case Crash(_) => FRESH_STORE
    case Receive(_) =>
      Store(h.store.queue[1..], h.store.applied + [h.store.queue[0]], ExecuteText(h.store.db, h.store.queue[0]))
    case _ => h.store
  }

  /** A vote reply that raised the count. */
  predicate CountsVote(h: Host, a: Action) {
    a.VoteReplyArrives? && Ready(h, a) && NodeAfter(h, a).votesReceived != h.node.votesReceived
  }

  function CountedAfter(h: Host, a: Action): set<Name> {
    if a.Crash? then {}
    else if Campaigns(h, a) then {a.n}
    else if CountsVote(h, a) then h.counted + {a.r.to}
    else h.counted
  }

  function HostAfter(h: Host, clock: nat, a: Action): Host
    requires Ready(h, a)
  {
    var n' := NodeAfter(h, a);
    Host(n', StoreAfter(h, a),
         if a.Crash? then clock else h.born,
         if a.Crash? then 0 else if Campaigns(h, a) then n'.currentTerm else h.campaign,
         CountedAfter(h, a),
         if a.AppendArrives? && a.r.msg.append.entries != [] then a.r.stamp else h.arrived,
         if a.Client? && Accepts(h.node) then h.written + [a.cmd] else h.written)
  }

  /** The calls the step starts. */
  function Calls(h: Host, a: Action): map<Name, Msg>
    requires Ready(h, a)
  {
    match a
    case Timer(_, hb, el, ef) => OnTimer(h.node, hb, el, ef).calls
    case Client(_, cmd) => DoLog(h.node, cmd).calls
    case _ => map[]
  }

  /** The answer the step sends back over the call it was delivered by. */
  function Answer(h: Host, a: Action): Option<Msg>
    requires Ready(h, a)
  {
    match a
    case VoteRequestArrives(r, _) =>
      var answer := OnVoteRequest(h.node, r.msg.vote).1;
      if answer.Some? then Some(VoteAnswer(r.msg.vote, answer.value)) else None
    case AppendArrives(r, _) =>
      Some(AppendAnswer(r.msg.append, r.msg.isHeartbeat, OnAppendRequest(h.node, r.msg.append).1))
    case _ => None
  }

  /** The new calls in flight, stamped with the clock, or the answer on its way back. */
  function Added(h: Host, clock: nat, a: Action): set<Rpc>
    requires Ready(h, a)
  {
    var calls := Calls(h, a);
    (set p | p in calls :: Rpc(clock, Subject(a), p, calls[p])) +
    if Answer(h, a).Some? then {a.r.(msg := Answer(h, a).value)} else {}
  }

  /** A delivered or lost call is gone, unless the network delivers a request again. */
  function Removed(a: Action): set<Rpc> {
    if !IsDelivery(a) || (a.VoteRequestArrives? && a.again) || (a.AppendArrives? && a.again) then {} else {a.r}
  }

  function VotesCast(h: Host, a: Action): set<Vote>
    requires Ready(h, a)
  {
    if Campaigns(h, a) then {Vote(a.n, NodeAfter(h, a).currentTerm, a.n)}
    else if a.VoteRequestArrives? && Answer(h, a).Some? && Answer(h, a).value.granted.voteGranted then
      {Vote(a.r.to, a.r.msg.vote.term, a.r.msg.vote.name)}
    else {}
  }

  /** The CANDIDATE to LEADER step, or the election of a node without peers. */
  predicate Wins(h: Host, a: Action)
    requires Ready(h, a)
  {
    (a.Timer? || a.VoteReplyArrives?) && h.node.role != Leader && NodeAfter(h, a).role == Leader
  }

  function VictoriesWon(h: Host, clock: nat, a: Action): set<Victory>
    requires Ready(h, a)
  {
    if Wins(h, a) then {Victory(Subject(a), HostAfter(h, clock, a).campaign, CountedAfter(h, a))} else {}
  }

  predicate Mints(h: Host, a: Action) {
    a.Client? && Accepts(h.node) && CanMint(h.node)
  }

  function MintAfter(minted: map<Key, Mint>, h: Host, a: Action): map<Key, Mint> {
    if Mints(h, a) then minted[KeyOf(Minted(h.node, a.cmd)) := Mint(a.cmd, LastKey(h.node.logs))] else minted
  }

  function Next(c: Cluster, a: Action): Cluster
    requires Enabled(c, a)
  {
    var h := c.hosts[Subject(a)];
    Cluster(
      c.hosts[Subject(a) := HostAfter(h, c.clock, a)],
      (c.net - Removed(a)) + Added(h, c.clock, a),
      if Calls(h, a) == map[] then c.clock else c.clock + 1,
      c.votes + VotesCast(h, a),
      c.victories + VictoriesWon(h, c.clock, a),
      MintAfter(c.minted, h, a))
  }

  /** What most invariants need of a step: one host's node changes, and the sets grow. */
  lemma NextParts(c: Cluster, a: Action)
    requires Enabled(c, a)
    ensures var h, c' := c.hosts[Subject(a)], Next(c, a);
            && c'.hosts == c.hosts[Subject(a) := HostAfter(h, c.clock, a)]
            && HostAfter(h, c.clock, a).node == NodeAfter(h, a)
            && HostAfter(h, c.clock, a).store == StoreAfter(h, a)
            && HostAfter(h, c.clock, a).counted == CountedAfter(h, a)
            && HostAfter(h, c.clock, a).born == (if a.Crash? then c.clock else h.born)
            && c'.net == (c.net - Removed(a)) + Added(h, c.clock, a)
            && c'.votes == c.votes + VotesCast(h, a)
            && c'.victories == c.victories + VictoriesWon(h, c.clock, a)
            && c'.minted == MintAfter(c.minted, h, a)
            && c'.clock == if Calls(h, a) == map[] then c.clock else c.clock + 1
  {
  }

  // ---------- runs ----------

  function FreshHost(n: Name, members: set<Name>): Host {
    Host(Boot(n, members - {n}, None), FRESH_STORE, 0, 0, {}, 0, [])
  }

  /** Every member a fresh process without a persisted file, knowing all the others; stamps start at 1. */
  predicate Init(c: Cluster) {
    && (forall n <- c.hosts :: c.hosts[n] == FreshHost(n, c.hosts.Keys))
    && c.net == {} && c.clock == 1 && c.votes == {} && c.victories == {} && c.minted == map[]
  }

  ghost predicate IsRun(cs: seq<Cluster>, acts: seq<Action>) {
    && |cs| == |acts| + 1
    && Init(cs[0])
    && forall i :: 0 <= i < |acts| ==> Enabled(cs[i], acts[i]) && cs[i + 1] == Next(cs[i], acts[i])
  }

  // ---------- hypotheses a theorem may put on a run, step by step ----------

  /** No term counter passes 2^64 - 1. */
  predicate TermDoesNotWrap(c: Cluster, a: Action) {
    Enabled(c, a) && Campaigns(c.hosts[Subject(a)], a) ==> c.hosts[Subject(a)].node.currentTerm < MAX_UINT64
  }

  ghost predicate TermsDoNotWrap(cs: seq<Cluster>, acts: seq<Action>)
    requires |cs| == |acts| + 1
  {
    forall i :: 0 <= i < |acts| ==> TermDoesNotWrap(cs[i], acts[i])
  }

  /** A vote reply reaches a candidate only before it starts a later campaign. */
  predicate VoteReplyIsCurrent(c: Cluster, a: Action) {
    Enabled(c, a) && a.VoteReplyArrives? ==> a.r.msg.vote.term == c.hosts[a.r.from].campaign
  }

  ghost predicate VoteRepliesAreCurrent(cs: seq<Cluster>, acts: seq<Action>)
    requires |cs| == |acts| + 1
  {
    forall i :: 0 <= i < |acts| ==> VoteReplyIsCurrent(cs[i], acts[i])
  }

  /** No (term, index) pair is minted twice. */
  predicate MintIsFresh(c: Cluster, a: Action) {
    Enabled(c, a) && Mints(c.hosts[Subject(a)], a) ==> KeyOf(Minted(c.hosts[a.n].node, a.cmd)) !in c.minted
  }

  ghost predicate MintsAreFresh(cs: seq<Cluster>, acts: seq<Action>)
    requires |cs| == |acts| + 1
  {
    forall i :: 0 <= i < |acts| ==> MintIsFresh(cs[i], acts[i])
  }

  /** Requests with entries reach a node in the order they were sent; some may be lost. */
  predicate ArrivesInOrder(c: Cluster, a: Action) {
    Enabled(c, a) && a.AppendArrives? && a.r.msg.append.entries != [] ==> a.r.stamp > c.hosts[a.r.to].arrived
  }

  ghost predicate RequestsArriveInOrder(cs: seq<Cluster>, acts: seq<Action>)
    requires |cs| == |acts| + 1
  {
    forall i :: 0 <= i < |acts| ==> ArrivesInOrder(cs[i], acts[i])
  }

  /** Only the given node is ever leader, and once it is it stays so. */
  predicate KeepsSoleLeader(c: Cluster, c': Cluster, leader: Name) {
    && (forall n <- c'.hosts :: c'.hosts[n].node.role == Leader ==> n == leader)
    && (leader in c.hosts && c.hosts[leader].node.role == Leader ==>
          leader in c'.hosts && c'.hosts[leader].node.role == Leader)
  }

  ghost predicate HasSoleLeader(cs: seq<Cluster>, acts: seq<Action>, leader: Name)
    requires |cs| == |acts| + 1
  {
    forall i :: 0 <= i < |acts| ==> KeepsSoleLeader(cs[i], cs[i + 1], leader)
  }

  // ---------- what every run keeps about its shape ----------

  ghost predicate HostOK(h: Host, n: Name, members: set<Name>, clock: nat) {
    && h.node.name == n
    && h.node.peers.Keys == members - {n}
    && (!h.node.running ==> h.node == Boot(n, members - {n}, h.node.disk) && h.store == FRESH_STORE)
    && h.arrived < clock && h.born <= clock
  }

  ghost predicate RpcOK(c: Cluster, r: Rpc) {
    && r.from in c.hosts && r.to in c.hosts && r.from != r.to
    && r.stamp < c.clock
    && (r.stamp >= c.hosts[r.from].born ==> c.hosts[r.from].node.running)
    && match r.msg
       case VoteAsk(q) => q.name == r.from
       case VoteAnswer(q, a) => q.name == r.from && a.name == r.to
       case AppendAsk(q, _) => q.name == r.from
       case AppendAnswer(q, _, a) => q.name == r.from && a.name == r.to
  }

  ghost predicate WellFormed(c: Cluster) {
    && (forall n <- c.hosts :: HostOK(c.hosts[n], n, c.hosts.Keys, c.clock))
    && (forall r <- c.net :: RpcOK(c, r))
    && c.clock > 0
  }

  lemma InitIsWellFormed(c: Cluster)
    requires Init(c)
    ensures WellFormed(c)
  {
  }

  /** Handlers keep the node's name and peers, start nothing, and do nothing on a node that is not running. */
  ghost predicate SameProcess(n: Node, m: Node) {
    m.name == n.name && m.peers.Keys == n.peers.Keys && m.running == n.running && (!n.running ==> m == n)
  }

  lemma HandlersKeepProcess(h: Host, a: Action)
    requires Ready(h, a) && !a.Crash? && !a.Start?
    requires !h.node.running ==> h.node.role == Follower
    requires a.VoteReplyArrives? ==> h.node.running
    ensures SameProcess(h.node, NodeAfter(h, a))
  {
    hide OnAppendReply, Pushes, AppendCalls, Splice;
    if a.AppendReplyArrives? {
      ReplyMovesIndices(h.node, a.r.msg.reply, a.r.msg.isHeartbeat);
    }
  }

  lemma IdleStoreStays(h: Host, a: Action)
    requires Ready(h, a) && !h.node.running && h.node.role == Follower && h.store == FRESH_STORE
    ensures StoreAfter(h, a) == FRESH_STORE
  {
  }

  lemma HostStaysOK(h: Host, n: Name, members: set<Name>, clock: nat, a: Action)
    requires Ready(h, a) && HostOK(h, n, members, clock)
    requires a.VoteReplyArrives? ==> h.node.running
    requires a.AppendArrives? ==> a.r.stamp < clock
    ensures HostOK(HostAfter(h, clock, a), n, members, clock)
    ensures !a.Crash? && !a.Start? ==> SameProcess(h.node, NodeAfter(h, a))
  {
    hide DoLog, OnTimer, OnAppendReply, OnAppendRequest, OnVoteReply, OnVoteRequest, CountedAfter;
    if !a.Crash? && !a.Start? {
      HandlersKeepProcess(h, a);
    }
    if !h.node.running {
      IdleStoreStays(h, a);
    }
  }

  /** The calls and answers of a step carry the right names. */
  lemma AddedSpec(h: Host, clock: nat, a: Action, r: Rpc)
    requires Ready(h, a) && r in Added(h, clock, a)
    ensures if IsDelivery(a) then
              && r == a.r.(msg := r.msg)
              && (a.VoteRequestArrives? ==>
                    r.msg.VoteAnswer? && r.msg.vote == a.r.msg.vote && r.msg.granted.name == h.node.name)
              && (a.AppendArrives? ==>
                    r.msg.AppendAnswer? && r.msg.append == a.r.msg.append && r.msg.reply.name == h.node.name)
              && (a.VoteRequestArrives? || a.AppendArrives?)
            else
              && r.stamp == clock && r.from == Subject(a) && r.to in h.node.peers && h.node.running
              && (a.Timer? || a.Client?) && r.to in Calls(h, a) && r.msg == Calls(h, a)[r.to]
              && ((r.msg.VoteAsk? && r.msg.vote.name == h.node.name) ||
                 (r.msg.AppendAsk? && r.msg.append.name == h.node.name))
  {
  }

  lemma SubjectStaysOK(c: Cluster, a: Action)
    requires WellFormed(c) && Enabled(c, a)
    ensures var h := c.hosts[Subject(a)];
            && HostOK(HostAfter(h, c.clock, a), Subject(a), c.hosts.Keys, c.clock)
            && (!a.Crash? && !a.Start? ==> SameProcess(h.node, NodeAfter(h, a)))
  {
    hide NodeAfter, HostAfter;
    if IsDelivery(a) {
      assert RpcOK(c, a.r);
    }
    HostStaysOK(c.hosts[Subject(a)], Subject(a), c.hosts.Keys, c.clock, a);
  }

  /** What a step may rely on in a well-formed cluster. */
  lemma SubjectIsOK(c: Cluster, a: Action)
    requires WellFormed(c) && Enabled(c, a)
    ensures HostOK(c.hosts[Subject(a)], Subject(a), c.hosts.Keys, c.clock)
    ensures IsDelivery(a) ==> RpcOK(c, a.r)
    ensures a.VoteRequestArrives? ==> a.r.msg.VoteAsk? && a.r.msg.vote.name == a.r.from
    ensures a.AppendArrives? ==> a.r.msg.AppendAsk?
    ensures a.AppendReplyArrives? ==> a.r.msg.AppendAnswer? && a.r.msg.reply.name == a.r.to
    ensures a.VoteReplyArrives? || a.AppendReplyArrives? ==> c.hosts[Subject(a)].node.running
  {
  }

  lemma MemberIsOK(c: Cluster, n: Name)
    requires WellFormed(c) && n in c.hosts
    ensures HostOK(c.hosts[n], n, c.hosts.Keys, c.clock)
  {
  }

  lemma CallIsOK(c: Cluster, r: Rpc)
    requires WellFormed(c) && r in c.net
    ensures RpcOK(c, r)
  {
  }

  lemma AddedIsOK(c: Cluster, a: Action, r: Rpc)
    requires WellFormed(c) && Enabled(c, a) && r in Added(c.hosts[Subject(a)], c.clock, a)
    ensures RpcOK(Next(c, a), r)
  {
    hide WellFormed, Next, HostAfter, NodeAfter, StoreAfter, Calls, Answer, Added, VotesCast, VictoriesWon, MintAfter;
    var h := c.hosts[Subject(a)];
    NextParts(c, a);
    AddedSpec(h, c.clock, a, r);
    SubjectStaysOK(c, a);
    SubjectIsOK(c, a);
    assert Next(c, a).hosts.Keys == c.hosts.Keys;
  }

  /** The membership never changes, and messages name the nodes they travel between. */
  lemma StaysWellFormed(c: Cluster, a: Action)
    requires WellFormed(c) && Enabled(c, a)
    ensures WellFormed(Next(c, a))
    ensures Next(c, a).hosts.Keys == c.hosts.Keys
  {
    hide WellFormed, Next, HostAfter, NodeAfter, StoreAfter, Calls, Answer, Added, VotesCast, VictoriesWon, MintAfter,
         RpcOK;
    var c' := Next(c, a);
    NextParts(c, a);
    SubjectStaysOK(c, a);
    assert c'.hosts.Keys == c.hosts.Keys;
    forall n <- c'.hosts ensures HostOK(c'.hosts[n], n, c'.hosts.Keys, c'.clock) {
      MemberIsOK(c, n);
    }
    forall r <- c'.net ensures RpcOK(c', r) {
      if r in c.net {
        OldCallStaysOK(c, a, r);
      } else {
        AddedIsOK(c, a, r);
      }
    }
    assert c.clock > 0 by { ClockRuns(c); }
    MakesWellFormed(c');
  }

  lemma ClockRuns(c: Cluster)
    requires WellFormed(c)
    ensures c.clock > 0
  {
  }

  lemma MakesWellFormed(c: Cluster)
    requires forall n <- c.hosts :: HostOK(c.hosts[n], n, c.hosts.Keys, c.clock)
    requires forall r <- c.net :: RpcOK(c, r)
    requires c.clock > 0
    ensures WellFormed(c)
  {
    hide HostOK, RpcOK;
  }

  lemma OldCallStaysOK(c: Cluster, a: Action, r: Rpc)
    requires WellFormed(c) && Enabled(c, a) && r in c.net
    ensures RpcOK(Next(c, a), r)
  {
    hide WellFormed, Next, HostAfter, NodeAfter, StoreAfter, Calls, Answer, Added, VotesCast, VictoriesWon, MintAfter;
    NextParts(c, a);
    SubjectStaysOK(c, a);
    CallIsOK(c, r);
  }
}
