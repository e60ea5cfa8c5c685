/**
 One SRaft node as a value, and what each of its handlers, run as one atomic step under the
 node's mutex, makes of it. The class SRaft is proved to compute these functions.
 */
module RaftNode {
  import opened Common
  import opened MachineInts
  import opened RaftLog

  type Name = string

  datatype Role = Follower | Candidate | Leader

  /** A leader's view of a peer: one past, and at, the last log index it believes the peer holds. */
  datatype Peer = Peer(nextIndex: NextIndex, matchIndex: LastIndex)

  datatype PersistRecord = PersistRecord(term: Uint64, votedFor: Name, entries: seq<LogEntry>)

  datatype Node = Node(
    name: Name,
    running: bool,
    role: Role,
    logs: seq<LogEntry>,
    votedFor: Name,
    votesReceived: nat,
    commitIndex: LastIndex,
    lastApplied: LastIndex,
    currentTerm: Uint64,
    peers: map<Name, Peer>,
    disk: Option<PersistRecord>)

  datatype VoteRequest = VoteRequest(name: Name, term: Uint64, lastLogIndex: Int64, lastLogTerm: Uint64)
  datatype VoteResponse = VoteResponse(name: Name, term: Uint64, voteGranted: bool)
  datatype AppendRequest = AppendRequest(
    name: Name, term: Uint64, prevLogIndex: LastIndex, prevLogTerm: Uint64, leaderCommit: LastIndex,
    entries: seq<LogEntry>)
  datatype AppendResponse = AppendResponse(
    name: Name, term: Uint64, success: bool, lastLogIndex: LastIndex, lastLogTerm: Uint64)

  /** What travels between two nodes; a reply keeps the request its thread captured. */
  datatype Msg =
    | VoteAsk(vote: VoteRequest)
    | VoteAnswer(vote: VoteRequest, granted: VoteResponse)
    | AppendAsk(append: AppendRequest, isHeartbeat: bool)
    | AppendAnswer(append: AppendRequest, isHeartbeat: bool, reply: AppendResponse)

  /** The node after a step, the call it starts to each peer, and the commands it pushes to the channel. */
  datatype Effect = Effect(node: Node, calls: map<Name, Msg>, pushed: seq<string>)

  function Quiet(n: Node): Effect {
    Effect(n, map[], [])
  }

  // Snapshots are not implemented, so these never change.
  const LAST_INCLUDE_TERM: Uint64 := 0
  const LAST_INCLUDE_INDEX: Int64 := -1

  // ---------- start-up and persistence ----------

  /** A freshly constructed process with its peers added, before Run. */
  function Boot(name: Name, peerNames: set<Name>, disk: Option<PersistRecord>): Node {
    Node(name, false, Follower, [], "", 0, -1, -1, 0, map p | p in peerNames :: Peer(0, -1), disk)
  }

  function Dump(n: Node): Node {
    n.(disk := Some(PersistRecord(n.currentTerm, n.votedFor, n.logs)))
  }

  function Load(n: Node): Node {
    match n.disk
    case None => n
    case Some(r) => n.(currentTerm := r.term, votedFor := r.votedFor, logs := r.entries)
  }

  function Run(n: Node): Node {
    Load(n).(running := true)
  }

  // ---------- timer and elections ----------

  /** currentTerm_++ on a uint64_t. */
  function NextTerm(term: Uint64): Uint64 {
    ToU64(term + 1)
  }

  /** The request of a candidate; an empty log is announced with last term 2^64 - 1. */
  function VoteRequestOf(n: Node): VoteRequest {
    VoteRequest(n.name, n.currentTerm, ToI64(|n.logs| - 1), if |n.logs| > 0 then LastLogTerm(n.logs) else MAX_UINT64)
  }

  /** A new campaign, persisted with the vote for itself. */
  function Candidacy(n: Node): Node {
    Dump(n.(role := Candidate, currentTerm := NextTerm(n.currentTerm), votesReceived := 1, votedFor := n.name))
  }

  function Election(n: Node): Effect {
    var c := Candidacy(n);
    Effect(if c.peers == map[] then c.(role := Leader) else c, map p | p in c.peers :: VoteAsk(VoteRequestOf(c)), [])
  }

  function OnTimer(n: Node, heartbeatDue: bool, electionDue: bool, electionFailDue: bool): Effect {
    if !n.running then Quiet(n)
    else match n.role
      case Leader => if heartbeatDue && n.peers != map[] then Effect(n, AppendCalls(n, true), []) else Quiet(n)
      case Follower => if electionDue then Election(n) else Quiet(n)
      case Candidate => Quiet(if electionFailDue then n.(role := Follower) else n)
  }

  // ---------- log replication, leader side ----------

  /** The request for one peer; None when it would carry a blank entry, which cannot be serialised. */
  function AppendRequestFor(n: Node, peer: Peer, isHeartbeat: bool): Option<AppendRequest> {
    if isHeartbeat then Some(AppendRequest(n.name, n.currentTerm, -1, MAX_UINT64, n.commitIndex, []))
    else
      var prev := peer.nextIndex - 1;
      var prevTerm := if prev > -1 then TermOf(GetLogByIndex(n.logs, prev)) else 0;
      match EntriesFrom(n.logs, peer.nextIndex)
      case None => None
      case Some(entries) => Some(AppendRequest(n.name, n.currentTerm, prev, prevTerm, n.commitIndex, entries))
  }

  /** The term of a blank entry is 0. */
  function TermOf(e: Option<LogEntry>): Uint64 {
    if e.Some? then e.value.term else 0
  }

  function AppendCalls(n: Node, isHeartbeat: bool): map<Name, Msg> {
    map p | p in n.peers && AppendRequestFor(n, n.peers[p], isHeartbeat).Some? ::
      AppendAsk(AppendRequestFor(n, n.peers[p], isHeartbeat).value, isHeartbeat)
  }

  /** The commands at indices from + 1 .. to, those of blank and empty entries left out. */
  function Pushes(logs: seq<LogEntry>, from: LastIndex, to: LastIndex): seq<string>
    decreases to - from
  {
    if from >= to then []
    else
      Pushes(logs, from, to - 1) +
      match GetLogByIndex(logs, ToU64(to))
      case None => []
      case Some(e) => if e.data == "" then [] else [e.data]
  }

  lemma NothingToPush(logs: seq<LogEntry>, from: LastIndex, to: LastIndex)
    requires from >= to
    ensures Pushes(logs, from, to) == []
  {
  }

  function Apply(n: Node): (e: Effect)
    ensures e.node.lastApplied >= n.lastApplied && e.node.lastApplied >= n.commitIndex
  {
    Effect(n.(lastApplied := Max(n.lastApplied, n.commitIndex)), map[], Pushes(n.logs, n.lastApplied, n.commitIndex))
  }

  /** The next index stays below the largest int64_t, so that one more can still be added to it. */
  predicate CanMint(n: Node) {
    LastLogIndex(n.logs) + 1 < TWO_TO_63 - 1
  }

  function Minted(n: Node, cmd: string): LogEntry
    requires CanMint(n)
  {
    LogEntry(LastLogIndex(n.logs) + 1, n.currentTerm, cmd)
  }

  predicate Accepts(n: Node) {
    n.running && n.role == Leader
  }

  function DoLog(n: Node, cmd: string): Effect
    requires CanMint(n)
  {
    if !Accepts(n) then Quiet(n)
    else
      var d := Dump(n.(logs := n.logs + [Minted(n, cmd)]));
      if d.peers == map[] then Apply(d.(commitIndex := LastLogIndex(d.logs)))
      else Effect(d, AppendCalls(d, false), [])
  }

  // ---------- log replication, follower side ----------

  function OnAppendRequest(n: Node, q: AppendRequest): (Node, AppendResponse) {
    var refusal := AppendResponse(n.name, n.currentTerm, false, LastLogIndex(n.logs), LastLogTerm(n.logs));
    if !n.running || q.term < n.currentTerm then (n, refusal)
    else if q.entries == [] then (n.(role := Follower, currentTerm := q.term), refusal)
    else if q.prevLogIndex >= BaseLogIndex(n.logs) then
      var logs := Splice(n.logs, q.prevLogTerm, q.prevLogIndex, q.entries);
      (Dump(n.(logs := logs)),
       refusal.(success := true, lastLogIndex := LastLogIndex(logs), lastLogTerm := LastLogTerm(logs)))
    else (Dump(n), refusal)
  }

  /** The peers believed to hold the log through index i. */
  function Matching(peers: map<Name, Peer>, i: LastIndex): set<Name> {
    set p | p in peers && peers[p].matchIndex >= i
  }

  /** A success past the commit index counts for its peer, and commits when enough peers match. */
  function TakeSuccess(m: Node, a: AppendResponse): Effect
    requires a.name in m.peers
  {
    var k := m.(peers := m.peers[a.name := Peer(a.lastLogIndex + 1, a.lastLogIndex)]);
    if 1 + |Matching(k.peers, a.lastLogIndex)| >= |k.peers| / 2 then Apply(k.(commitIndex := a.lastLogIndex))
    else Quiet(k)
  }

  function OnAppendReply(n: Node, a: AppendResponse, isHeartbeat: bool): Effect
    requires a.name in n.peers
  {
    if n.role != Leader then Quiet(n)
    else
      var m := if a.term > n.currentTerm then Dump(n.(role := Follower)) else n;
      var next := a.lastLogIndex + 1;
      if isHeartbeat then Quiet(m)
      else if !a.success then Quiet(m.(peers := m.peers[a.name := m.peers[a.name].(nextIndex := next)]))
      else if a.lastLogIndex <= m.commitIndex then Quiet(m)
      else TakeSuccess(m, a)
  }

  /** What a reply may change: role and file by its term, and the leader's indices. */
  lemma ReplyMovesIndices(n: Node, a: AppendResponse, isHeartbeat: bool)
    requires a.name in n.peers
    ensures var e := OnAppendReply(n, a, isHeartbeat);
            var higher := n.role == Leader && a.term > n.currentTerm;
            && e.node == n.(role := if higher then Follower else n.role,
                            disk := if higher then Dump(n).disk else n.disk,
                            peers := e.node.peers, commitIndex := e.node.commitIndex, lastApplied := e.node.lastApplied)
            && e.node.peers.Keys == n.peers.Keys && (n.role != Leader ==> e.node == n)
  {
    hide Pushes, Matching;
  }

  // ---------- votes ----------

  predicate CandidateTermOld(logs: seq<LogEntry>, q: VoteRequest) {
    q.lastLogTerm < LAST_INCLUDE_TERM || (|logs| > 0 && q.lastLogTerm < LastLogTerm(logs))
  }

  /** The second comparison mixes an int64_t with a size_t, so it is made on uint64_t. */
  predicate CandidateIndexOld(logs: seq<LogEntry>, q: VoteRequest) {
    q.lastLogIndex < LAST_INCLUDE_INDEX ||
    (|logs| > 0 && q.lastLogTerm == LastLogTerm(logs) && ToU64(q.lastLogIndex) < ToU64(|logs| + LAST_INCLUDE_INDEX))
  }

  /** A node that is not running sends no usable reply. The reply carries the term from before the step. */
  function OnVoteRequest(n: Node, q: VoteRequest): (Node, Option<VoteResponse>) {
    var refusal := VoteResponse(n.name, n.currentTerm, false);
    if !n.running then (n, None)
    else if q.term <= n.currentTerm then (n, Some(refusal))
    else
      var m := n.(currentTerm := q.term);
      if CandidateIndexOld(n.logs, q) || CandidateTermOld(n.logs, q) then (m, Some(refusal))
      else (Dump(if m.role == Leader then m.(role := Follower) else m), Some(refusal.(voteGranted := true)))
  }

  /** On a higher term the node is persisted before its term is raised. */
  function OnVoteReply(n: Node, a: VoteResponse): Node {
    var m := if a.term > n.currentTerm then Dump(n.(role := Follower)).(currentTerm := a.term) else n;
    if m.role != Candidate || !a.voteGranted then m
    else
      var votes := m.votesReceived + 1;
      m.(votesReceived := votes, role := if votes > |m.peers| / 2 then Leader else Candidate)
  }
}
