/**
 What the term, the role and the file of a node do over runs, said of the messages that reach it: the
 laws that hold whatever the other nodes are up to.
 */
module Terms {
  import opened Common
  import opened MachineInts
  import opened RaftLog
  import opened RaftNode
  import opened Cluster
  import opened SoleLeader
  import opened OneVote

  /** What a step of a run starts from, and where it leaves the node it happens at. */
  lemma StepOfRun(cs: seq<Cluster>, acts: seq<Action>, k: nat)
    requires IsRun(cs, acts) && k < |acts|
    ensures WellFormed(cs[k]) && Enabled(cs[k], acts[k]) && cs[k + 1] == Next(cs[k], acts[k])
    ensures Subject(acts[k]) in cs[k].hosts && Subject(acts[k]) in cs[k + 1].hosts
    ensures var n := Subject(acts[k]);
            && HostOK(cs[k].hosts[n], n, cs[k].hosts.Keys, cs[k].clock)
            && cs[k + 1].hosts[n].node == NodeAfter(cs[k].hosts[n], acts[k])
    ensures forall m <- cs[k].hosts :: m != Subject(acts[k]) ==>
            m in cs[k + 1].hosts && cs[k + 1].hosts[m] == cs[k].hosts[m]
    ensures acts[k].VoteReplyArrives? || acts[k].AppendReplyArrives? ==> cs[k].hosts[Subject(acts[k])].node.running
  {
    hide WellFormed, Next, HostAfter, NodeAfter, HostOK;
    RunStaysWellFormed(cs, acts, k);
    NextParts(cs[k], acts[k]);
    SubjectIsOK(cs[k], acts[k]);
  }

  lemma {:induction false} RunStaysWellFormed(cs: seq<Cluster>, acts: seq<Action>, k: nat)
    requires IsRun(cs, acts) && k < |cs|
    ensures WellFormed(cs[k])
  {
    hide Next, WellFormed;
    if k == 0 {
      InitIsWellFormed(cs[0]);
    } else {
      RunStaysWellFormed(cs, acts, k - 1);
      StaysWellFormed(cs[k - 1], acts[k - 1]);
    }
  }

  // ---------- terms ----------

  /** The term a message asks its receiver to adopt; requests with entries and their replies never do. */
  function TermHeard(a: Action): Uint64 {
    match a
    case VoteRequestArrives(r, _) => if r.msg.VoteAsk? then r.msg.vote.term else 0
    case VoteReplyArrives(r) => if r.msg.VoteAnswer? then r.msg.granted.term else 0
    case AppendArrives(r, _) => if r.msg.AppendAsk? && r.msg.append.entries == [] then r.msg.append.term else 0
    case _ => 0
  }

  lemma HandlerTerm(h: Host, a: Action)
    requires Ready(h, a) && h.node.running && !a.Crash?
    requires Campaigns(h, a) ==> h.node.currentTerm < MAX_UINT64
    ensures NodeAfter(h, a).currentTerm ==
            if Campaigns(h, a) then h.node.currentTerm + 1 else Max(h.node.currentTerm, TermHeard(a))
  {
    hide OnAppendReply, Splice, Pushes, AppendCalls;
    if a.AppendReplyArrives? {
      ReplyMovesIndices(h.node, a.r.msg.reply, a.r.msg.isHeartbeat);
    }
  }

  /** A running node's term rises by its own campaigns and to the highest term it hears of, refusing or not. */
  lemma TermIsHighestHeard(cs: seq<Cluster>, acts: seq<Action>, k: nat)
    requires IsRun(cs, acts) && TermsDoNotWrap(cs, acts) && k < |acts|
    ensures Subject(acts[k]) in cs[k].hosts && Subject(acts[k]) in cs[k + 1].hosts
    ensures var h, n' := cs[k].hosts[Subject(acts[k])], cs[k + 1].hosts[Subject(acts[k])].node;
            h.node.running && !acts[k].Crash? ==>
              n'.currentTerm ==
              if Campaigns(h, acts[k]) then h.node.currentTerm + 1 else Max(h.node.currentTerm, TermHeard(acts[k]))
  {
    hide WellFormed, Next, NodeAfter, HostAfter;
    StepOfRun(cs, acts, k);
    var h := cs[k].hosts[Subject(acts[k])];
    assert TermDoesNotWrap(cs[k], acts[k]);
    if h.node.running && !acts[k].Crash? {
      HandlerTerm(h, acts[k]);
    }
  }

  // ---------- who leads ----------

  /** It becomes leader: alone, or with more votes than half of its peers. */
  predicate Elected(h: Host, a: Action) {
    || (Campaigns(h, a) && h.node.peers == map[])
    || (a.VoteReplyArrives? && a.r.msg.VoteAnswer? && h.node.role == Candidate
        && a.r.msg.granted.voteGranted && a.r.msg.granted.term <= h.node.currentTerm
        && h.node.votesReceived + 1 > |h.node.peers| / 2)
  }

  /** A heartbeat the node accepts, or the news of a higher term in a reply. */
  predicate Overruled(h: Host, a: Action) {
    match a
    case AppendArrives(r, _) => r.msg.AppendAsk? && r.msg.append.entries == [] &&
      r.msg.append.term >= h.node.currentTerm
    case VoteReplyArrives(r) => r.msg.VoteAnswer? && r.msg.granted.term > h.node.currentTerm
    case _ => false
  }

  /** What takes a leader out of its role: also a grant, or the higher term of a replication reply. */
  predicate Deposed(h: Host, a: Action)
    requires Ready(h, a)
  {
    || a.Crash? || Overruled(h, a) || (a.VoteRequestArrives? && VotesCast(h, a) != {})
    || (a.AppendReplyArrives? && a.r.msg.reply.term > h.node.currentTerm)
  }

  lemma HandlerLeads(h: Host, a: Action)
    requires Ready(h, a) && h.node.running
    ensures NodeAfter(h, a).role == Leader <==> (h.node.role == Leader && !Deposed(h, a)) || Elected(h, a)
  {
    hide OnAppendReply, Splice, Pushes, AppendCalls;
    if a.AppendReplyArrives? {
      ReplyMovesIndices(h.node, a.r.msg.reply, a.r.msg.isHeartbeat);
    }
  }

  lemma HandlerCampaigns(h: Host, a: Action)
    requires Ready(h, a) && h.node.running
    ensures NodeAfter(h, a).role == Candidate <==>
            || (Campaigns(h, a) && h.node.peers != map[])
            || (h.node.role == Candidate && !a.Crash? && !Overruled(h, a) && !Elected(h, a)
                && !(a.Timer? && a.electionFailDue))
  {
    hide OnAppendReply, Splice, Pushes, AppendCalls;
    if a.AppendReplyArrives? {
      ReplyMovesIndices(h.node, a.r.msg.reply, a.r.msg.isHeartbeat);
    }
  }

  /** Exactly when a running node leads after a step, and when it is a candidate. */
  lemma RoleExactly(cs: seq<Cluster>, acts: seq<Action>, k: nat)
    requires IsRun(cs, acts) && k < |acts|
    ensures Subject(acts[k]) in cs[k].hosts && Subject(acts[k]) in cs[k + 1].hosts
    ensures Ready(cs[k].hosts[Subject(acts[k])], acts[k])
    ensures var h, n', a := cs[k].hosts[Subject(acts[k])], cs[k + 1].hosts[Subject(acts[k])].node, acts[k];
            h.node.running ==>
              && (n'.role == Leader <==> (h.node.role == Leader && !Deposed(h, a)) || Elected(h, a))
              && (n'.role == Candidate <==>
                    || (Campaigns(h, a) && h.node.peers != map[])
                    || (h.node.role == Candidate && !a.Crash? && !Overruled(h, a) && !Elected(h, a)
                        && !(a.Timer? && a.electionFailDue)))
  {
    hide WellFormed, Next, NodeAfter, HostAfter, Deposed, Elected, Overruled;
    StepOfRun(cs, acts, k);
    if cs[k].hosts[Subject(acts[k])].node.running {
      HandlerLeads(cs[k].hosts[Subject(acts[k])], acts[k]);
      HandlerCampaigns(cs[k].hosts[Subject(acts[k])], acts[k]);
    }
  }

  lemma GrantIsByRunningNode(h: Host, a: Action)
    requires Ready(h, a) && a.VoteRequestArrives? && VotesCast(h, a) != {}
    ensures h.node.running && !Elected(h, a)
  {
  }

  /** Whoever votes for another node is no leader after that step. */
  lemma VotersDoNotLead(cs: seq<Cluster>, acts: seq<Action>, k: nat, v: Vote)
    requires IsRun(cs, acts) && k < |acts|
    requires v in cs[k + 1].votes && v !in cs[k].votes && v.candidate != v.voter
    ensures v.voter in cs[k + 1].hosts && cs[k + 1].hosts[v.voter].node.role != Leader
  {
    hide WellFormed, Next, NodeAfter, HostAfter, Overruled;
    StepOfRun(cs, acts, k);
    var a := acts[k];
    var h := cs[k].hosts[Subject(a)];
    NextParts(cs[k], a);
    RoleExactly(cs, acts, k);
    if a.VoteRequestArrives? {
      GrantIsByRunningNode(h, a);
    }
  }

  /** A leader that hears of a higher term in a vote request adopts it, and leads on in it exactly when it refuses. */
  lemma RefusingLeaderLeadsOn(n: Node, q: VoteRequest)
    requires n.running && n.role == Leader && q.term > n.currentTerm
    ensures var (n', answer) := OnVoteRequest(n, q);
            && n'.currentTerm == q.term && answer.Some?
            && (n'.role == Leader <==> !answer.value.voteGranted)
  {
  }

  /** As this one does, whose last entry has a later term than the candidate's. */
  lemma RefusalInAHigherTerm()
    ensures var n := Boot("a", {"b"}, None).(running := true, role := Leader, currentTerm := 1,
            logs := [LogEntry(0, 1, "put k v")]);
            var n' := OnVoteRequest(n, VoteRequest("b", 7, 0, 0)).0;
            n'.role == Leader && n'.currentTerm == 7 && n'.logs == n.logs
  {
  }

  // ---------- whose entries are taken ----------

  /** A request is accepted exactly when it carries entries, is not of a smaller term, and reaches back to the base. */
  predicate TakesEntries(n: Node, q: AppendRequest) {
    n.running && q.entries != [] && q.term >= n.currentTerm && q.prevLogIndex >= BaseLogIndex(n.logs)
  }

  lemma HandlerTakesEntries(n: Node, q: AppendRequest)
    ensures OnAppendRequest(n, q).1.success <==> TakesEntries(n, q)
    ensures !TakesEntries(n, q) ==> OnAppendRequest(n, q).0.logs == n.logs
    ensures !TakesEntries(n, q) && (n.running ==> n.logs == DiskLogs(n)) ==>
              DiskLogs(OnAppendRequest(n, q).0) == DiskLogs(n)
  {
    hide Splice;
  }

  /** A log in memory or on disk changes, and success is answered, only for a term at least the receiver's. */
  lemma EntriesNeedTheTerm(cs: seq<Cluster>, acts: seq<Action>, k: nat)
    requires IsRun(cs, acts) && k < |acts| && acts[k].AppendArrives?
    ensures acts[k].r.msg.AppendAsk? && acts[k].r.to in cs[k].hosts && acts[k].r.to in cs[k + 1].hosts
    ensures var q, n, n' := acts[k].r.msg.append, cs[k].hosts[acts[k].r.to].node, cs[k + 1].hosts[acts[k].r.to].node;
            && (n'.logs != n.logs || DiskLogs(n') != DiskLogs(n) ==> TakesEntries(n, q))
            && (OnAppendRequest(n, q).1.success <==> TakesEntries(n, q))
  {
    hide WellFormed, Next, HostAfter, HostOK, OnAppendRequest, TakesEntries;
    StepOfRun(cs, acts, k);
    LogIsPersisted(cs, acts, k, acts[k].r.to);
    HandlerTakesEntries(cs[k].hosts[acts[k].r.to].node, acts[k].r.msg.append);
  }

  /** A node that voted in a term never again changes its log for a request below it, through crashes too. */
  lemma VotesGuardTheLog(cs: seq<Cluster>, acts: seq<Action>, k: nat, v: Vote)
    requires IsRun(cs, acts) && TermsDoNotWrap(cs, acts) && k < |acts| && v in cs[k].votes
    requires acts[k].AppendArrives? && acts[k].r.to == v.voter && acts[k].r.msg.AppendAsk?
    requires acts[k].r.msg.append.term < v.term
    ensures v.voter in cs[k].hosts && v.voter in cs[k + 1].hosts
    ensures var n, n' := cs[k].hosts[v.voter].node, cs[k + 1].hosts[v.voter].node;
            n'.logs == n.logs && DiskLogs(n') == DiskLogs(n) && !OnAppendRequest(n, acts[k].r.msg.append).1.success
  {
    hide WellFormed, OnAppendRequest, TermsDoNotWrap, Next, Enabled;
    EntriesNeedTheTerm(cs, acts, k);
    PersistedTermCoversVotes(cs, acts, k, v.voter);
  }

  // ---------- what a client can do ----------

  lemma HandlerClient(h: Host, cmd: string)
    requires CanMint(h.node)
    ensures var e := DoLog(h.node, cmd);
            if h.node.running && h.node.role == Leader then
              && e.node.logs == h.node.logs + [LogEntry(LastLogIndex(h.node.logs) + 1, h.node.currentTerm, cmd)]
              && forall p <- e.calls ::
                   && e.calls[p].AppendAsk? && !e.calls[p].isHeartbeat && e.calls[p].append.name == h.node.name
                   && e.calls[p].append.term == h.node.currentTerm &&
                      e.calls[p].append.leaderCommit == h.node.commitIndex
            else e.node == h.node && e.calls == map[] && e.pushed == []
  {
    hide Pushes, EntriesFrom, GetLogByIndex;
  }

  /** A call started by a command carries the leader's name, term and commit index. */
  lemma NewCallOfCommand(c: Cluster, a: Action, r: Rpc)
    requires Enabled(c, a) && a.Client? && r in Next(c, a).net && r !in c.net && c.hosts[a.n].node.name == a.n
    ensures var n := c.hosts[a.n].node;
            && n.running && n.role == Leader
            && r.msg.AppendAsk? && !r.msg.isHeartbeat && r.from == r.msg.append.name == a.n
            && r.msg.append.term == n.currentTerm && r.msg.append.leaderCommit == n.commitIndex
  {
    hide Next, HostAfter, DoLog, VotesCast, VictoriesWon, MintAfter, NodeAfter, StoreAfter;
    NextParts(c, a);
    AddedSpec(c.hosts[a.n], c.clock, a, r);
    HandlerClient(c.hosts[a.n], a.cmd);
  }

  lemma NoCallElsewhere(c: Cluster, a: Action)
    requires Enabled(c, a) && a.Client? && !(c.hosts[a.n].node.running && c.hosts[a.n].node.role == Leader)
    ensures Next(c, a).net == c.net
    ensures Next(c, a).hosts[a.n].node == c.hosts[a.n].node && Next(c, a).hosts[a.n].store == c.hosts[a.n].store
  {
    hide Next, DoLog, VotesCast, VictoriesWon, MintAfter;
    NextParts(c, a);
    HandlerClient(c.hosts[a.n], a.cmd);
    assert c.hosts[a.n].store.queue + [] == c.hosts[a.n].store.queue;
  }

  /**
   A command is logged, next after the last entry and in the leader's term, exactly by a running leader; its
   requests carry that term and the leader's commit index. At any other node nothing happens.
   */
  lemma CommandsNeedALeader(cs: seq<Cluster>, acts: seq<Action>, k: nat)
    requires IsRun(cs, acts) && k < |acts| && acts[k].Client?
    ensures acts[k].n in cs[k].hosts && acts[k].n in cs[k + 1].hosts
    ensures var h, h' := cs[k].hosts[acts[k].n], cs[k + 1].hosts[acts[k].n];
            if h.node.running && h.node.role == Leader then
              && h'.node.logs == h.node.logs + [LogEntry(LastLogIndex(h.node.logs) + 1, h.node.currentTerm,
                 acts[k].cmd)]
              && forall r <- cs[k + 1].net :: r !in cs[k].net ==>
                   && r.msg.AppendAsk? && !r.msg.isHeartbeat && r.from == r.msg.append.name == acts[k].n
                   && r.msg.append.term == h.node.currentTerm && r.msg.append.leaderCommit == h.node.commitIndex
            else h'.node == h.node && h'.store == h.store && cs[k + 1].net == cs[k].net
  {
    hide WellFormed, Next, HostAfter, DoLog, VotesCast, VictoriesWon, MintAfter, StoreAfter;
    StepOfRun(cs, acts, k);
    HandlerClient(cs[k].hosts[acts[k].n], acts[k].cmd);
    if Accepts(cs[k].hosts[acts[k].n].node) {
      forall r <- cs[k + 1].net | r !in cs[k].net
        ensures r.msg.AppendAsk? && !r.msg.isHeartbeat && r.from == r.msg.append.name == acts[k].n
        ensures r.msg.append.term == cs[k].hosts[acts[k].n].node.currentTerm
        ensures r.msg.append.leaderCommit == cs[k].hosts[acts[k].n].node.commitIndex
      {
        NewCallOfCommand(cs[k], acts[k], r);
      }
    } else {
      NoCallElsewhere(cs[k], acts[k]);
    }
  }

  // ---------- what answers say ----------

  lemma HandlerAnswers(h: Host, a: Action)
    requires Ready(h, a) && Answer(h, a).Some?
    ensures match Answer(h, a).value
            case VoteAnswer(_, v) => v.name == h.node.name && v.term == h.node.currentTerm
            case AppendAnswer(_, _, v) =>
              && v.name == h.node.name && v.term == h.node.currentTerm
              && v.lastLogIndex == LastLogIndex(NodeAfter(h, a).logs) &&
                 v.lastLogTerm == LastLogTerm(NodeAfter(h, a).logs)
            case _ => false
  {
    hide Splice;
  }

  /**
   A replication request is always answered, a vote request exactly by a running node; every answer names its
   node and the term it had before, and a replication reply the end of its log after.
   */
  lemma AnswersReport(cs: seq<Cluster>, acts: seq<Action>, k: nat)
    requires IsRun(cs, acts) && k < |acts| && (acts[k].VoteRequestArrives? || acts[k].AppendArrives?)
    ensures acts[k].r.to in cs[k].hosts && acts[k].r.to in cs[k + 1].hosts && Ready(cs[k].hosts[acts[k].r.to], acts[k])
    ensures var h, n' := cs[k].hosts[acts[k].r.to], cs[k + 1].hosts[acts[k].r.to].node;
            && (Answer(h, acts[k]).Some? <==> acts[k].AppendArrives? || h.node.running)
            && (Answer(h, acts[k]).Some? ==>
                  match Answer(h, acts[k]).value
                  case VoteAnswer(_, v) => v.name == acts[k].r.to && v.term == h.node.currentTerm
                  case AppendAnswer(_, _, v) =>
                    && v.name == acts[k].r.to && v.term == h.node.currentTerm
                    && v.lastLogIndex == LastLogIndex(n'.logs) && v.lastLogTerm == LastLogTerm(n'.logs)
                  case _ => false)
  {
    hide WellFormed, Next, NodeAfter, HostAfter, OnAppendRequest;
    StepOfRun(cs, acts, k);
    if Answer(cs[k].hosts[acts[k].r.to], acts[k]).Some? {
      HandlerAnswers(cs[k].hosts[acts[k].r.to], acts[k]);
    }
  }

  lemma DumpsFileOnly(n: Node)
    ensures Dump(n) == n.(disk := Dump(n).disk)
  {
  }

  lemma SuccessIgnoresTerm(n: Node, m: Node, reply: AppendResponse, term: Uint64)
    requires reply.name in n.peers && m == n.(role := m.role, disk := m.disk)
    ensures var e, d := TakeSuccess(n, reply), TakeSuccess(m, reply.(term := term));
            e.pushed == d.pushed && d.node == e.node.(role := m.role, disk := m.disk)
  {
    hide Pushes, Matching;
  }

  /** A replication reply does the same to indices and commits whatever its term: a deposed leader goes on with it. */
  lemma ReplyTermOnlyDeposes(n: Node, reply: AppendResponse, term: Uint64, isHeartbeat: bool)
    requires reply.name in n.peers && n.role == Leader
    ensures var e, d := OnAppendReply(n, reply, isHeartbeat), OnAppendReply(n, reply.(term := term), isHeartbeat);
            e.pushed == d.pushed && e.node == d.node.(role := e.node.role, disk := e.node.disk)
  {
    hide TakeSuccess, Dump;
    DumpsFileOnly(n.(role := Follower));
    var f := Dump(n.(role := Follower));
    SuccessIgnoresTerm(n, f, reply, term);
    SuccessIgnoresTerm(f, n, reply, term);
    SuccessIgnoresTerm(n, n, reply, term);
    SuccessIgnoresTerm(f, f, reply, term);
  }

  /** What a follower does is the same for any leader commit in the request. */
  lemma LeaderCommitIsIgnored(n: Node, q: AppendRequest, commit: LastIndex)
    ensures OnAppendRequest(n, q) == OnAppendRequest(n, q.(leaderCommit := commit))
  {
  }

  // ---------- the file ----------

  /** The steps in which the node writes its file. */
  predicate Writes(h: Host, a: Action)
    requires Ready(h, a)
  {
    match a
    case Timer(_, _, _, _) => Campaigns(h, a)
    case Client(_, _) => Accepts(h.node)
    case VoteRequestArrives(_, _) => VotesCast(h, a) != {}
    case VoteReplyArrives(r) => r.msg.granted.term > h.node.currentTerm
    case AppendArrives(r, _) => r.msg.append.entries != [] && r.msg.append.term >= h.node.currentTerm
    case AppendReplyArrives(r) => h.node.role == Leader && r.msg.reply.term > h.node.currentTerm
    case _ => false
  }

  lemma HandlerFile(h: Host, a: Action)
    requires Ready(h, a) && h.node.running
    ensures var n' := NodeAfter(h, a);
            n'.disk ==
            if !Writes(h, a) then h.node.disk
            else Some(PersistRecord(if a.VoteReplyArrives? then h.node.currentTerm
              else n'.currentTerm, n'.votedFor, n'.logs))
  {
    hide OnAppendReply, Splice, Pushes, AppendCalls;
    if a.AppendReplyArrives? {
      ReplyMovesIndices(h.node, a.r.msg.reply, a.r.msg.isHeartbeat);
    }
  }

  /** Which steps write the file, which then holds the node as it is, but for the old term on a vote reply. */
  lemma FileWrittenExactly(cs: seq<Cluster>, acts: seq<Action>, k: nat)
    requires IsRun(cs, acts) && k < |acts|
    ensures Subject(acts[k]) in cs[k].hosts && Subject(acts[k]) in cs[k + 1].hosts
    ensures Ready(cs[k].hosts[Subject(acts[k])], acts[k])
    ensures var h, n', a := cs[k].hosts[Subject(acts[k])], cs[k + 1].hosts[Subject(acts[k])].node, acts[k];
            h.node.running ==>
              n'.disk ==
              if !Writes(h, a) then h.node.disk
              else Some(PersistRecord(if a.VoteReplyArrives? then h.node.currentTerm
                else n'.currentTerm, n'.votedFor, n'.logs))
  {
    hide WellFormed, Next, NodeAfter, HostAfter, Writes;
    StepOfRun(cs, acts, k);
    if cs[k].hosts[Subject(acts[k])].node.running {
      HandlerFile(cs[k].hosts[Subject(acts[k])], acts[k]);
    }
  }

  function DiskVote(n: Node): Name {
    if n.disk.Some? then n.disk.value.votedFor else ""
  }

  predicate MemoryOnDisk(n: Node) {
    n.running ==> n.logs == DiskLogs(n) && n.votedFor == DiskVote(n)
  }

  /** Without a write, log and vote stay; the vote changes by a campaign alone. */
  lemma HandlerUnwritten(h: Host, a: Action)
    requires Ready(h, a) && h.node.running && !a.Crash?
    ensures !Writes(h, a) ==> NodeAfter(h, a).logs == h.node.logs
    ensures NodeAfter(h, a).votedFor == if Campaigns(h, a) then h.node.name else h.node.votedFor
  {
    hide OnAppendReply, Splice, Pushes, AppendCalls;
    if a.AppendReplyArrives? {
      ReplyMovesIndices(h.node, a.r.msg.reply, a.r.msg.isHeartbeat);
    }
  }

  lemma IdleKeepsDisk(h: Host, a: Action)
    requires Ready(h, a) && !h.node.running && h.node.role == Follower && h.node.logs == [] && h.node.votedFor == ""
    requires !a.VoteReplyArrives? && !a.AppendReplyArrives?
    ensures MemoryOnDisk(NodeAfter(h, a)) && NodeAfter(h, a).disk == h.node.disk && !Campaigns(h, a)
  {
    hide Splice, Pushes, AppendCalls, Matching;
  }

  lemma HandlerKeepsMemoryOnDisk(h: Host, a: Action)
    requires Ready(h, a) && MemoryOnDisk(h.node) && (!h.node.running ==> h.node.role == Follower)
    requires !h.node.running ==> h.node.logs == [] && h.node.votedFor == ""
    requires a.VoteReplyArrives? || a.AppendReplyArrives? ==> h.node.running
    ensures MemoryOnDisk(NodeAfter(h, a))
    ensures DiskVote(NodeAfter(h, a)) == if Campaigns(h, a) then h.node.name else DiskVote(h.node)
  {
    hide NodeAfter, Writes, VotesCast;
    if a.Crash? {
      CrashKeepsDisk(h, a);
    } else if h.node.running {
      HandlerFile(h, a);
      HandlerUnwritten(h, a);
      if Campaigns(h, a) {
        CampaignWrites(h, a);
      }
    } else {
      IdleKeepsDisk(h, a);
    }
  }

  lemma CrashKeepsDisk(h: Host, a: Action)
    requires a.Crash?
    ensures !NodeAfter(h, a).running && NodeAfter(h, a).disk == h.node.disk
  {
  }

  lemma CampaignWrites(h: Host, a: Action)
    requires Ready(h, a) && Campaigns(h, a)
    ensures Writes(h, a)
  {
  }

  /** Every change of a log or a vote is on disk when its step ends. */
  lemma {:induction false} LogIsPersisted(cs: seq<Cluster>, acts: seq<Action>, k: nat, n: Name)
    requires IsRun(cs, acts) && k < |cs| && n in cs[k].hosts
    ensures MemoryOnDisk(cs[k].hosts[n].node)
  {
    hide WellFormed, Next, NodeAfter, HostAfter;
    if k > 0 {
      StepOfRun(cs, acts, k - 1);
      assert n in cs[k - 1].hosts by { StaysWellFormed(cs[k - 1], acts[k - 1]); }
      LogIsPersisted(cs, acts, k - 1, n);
      if n == Subject(acts[k - 1]) {
        HandlerKeepsMemoryOnDisk(cs[k - 1].hosts[n], acts[k - 1]);
      }
    } else {
      assert cs[0].hosts[n] == FreshHost(n, cs[0].hosts.Keys);
    }
  }

  ghost predicate HasCampaigned(cs: seq<Cluster>, acts: seq<Action>, k: nat, n: Name)
    requires k <= |acts| < |cs|
  {
    exists i :: 0 <= i < k && Subject(acts[i]) == n && n in cs[i].hosts && Campaigns(cs[i].hosts[n], acts[i])
  }

  /** The recorded vote is the node's own name once it has campaigned, through crashes; grants leave it alone. */
  lemma {:induction false} VotedForIsOwnCampaign(cs: seq<Cluster>, acts: seq<Action>, k: nat, n: Name)
    requires IsRun(cs, acts) && k < |cs| && n in cs[k].hosts
    ensures DiskVote(cs[k].hosts[n].node) == if HasCampaigned(cs, acts, k, n) then n else ""
    ensures cs[k].hosts[n].node.running ==> cs[k].hosts[n].node.votedFor == DiskVote(cs[k].hosts[n].node)
  {
    hide WellFormed, Next, NodeAfter, HostAfter, DiskVote;
    LogIsPersisted(cs, acts, k, n);
    if k > 0 {
      StepOfRun(cs, acts, k - 1);
      assert n in cs[k - 1].hosts by { StaysWellFormed(cs[k - 1], acts[k - 1]); }
      VotedForIsOwnCampaign(cs, acts, k - 1, n);
      LogIsPersisted(cs, acts, k - 1, n);
      if n == Subject(acts[k - 1]) {
        HandlerKeepsMemoryOnDisk(cs[k - 1].hosts[n], acts[k - 1]);
      }
    } else {
      assert cs[0].hosts[n] == FreshHost(n, cs[0].hosts.Keys);
      assert DiskVote(FreshHost(n, cs[0].hosts.Keys).node) == "" by { FreshVote(n, cs[0].hosts.Keys); }
    }
  }

  lemma FreshVote(n: Name, members: set<Name>)
    ensures DiskVote(FreshHost(n, members).node) == ""
  {
  }
}
