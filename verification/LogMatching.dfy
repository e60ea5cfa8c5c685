/**
 Log Matching (section 5.3 of the Raft paper), on the overlap the code keeps: a follower may drop its
 whole log, so a log can start above index 0. Holds with any loss, reordering, redelivery and crashes,
 and with several leaders at once, as long as no (term, index) pair is minted twice.
 */
module LogMatching {
  import opened Common
  import opened MachineInts
  import opened RaftLog
  import opened RaftNode
  import opened Cluster

  predicate EntryMinted(e: LogEntry, minted: map<Key, Mint>) {
    e.term >= 1 && KeyOf(e) in minted && minted[KeyOf(e)].data == e.data
  }

  /** The entry was minted right on top of the given one. */
  predicate FollowsOn(e: LogEntry, parent: Key, minted: map<Key, Mint>) {
    KeyOf(e) in minted && minted[KeyOf(e)].parent == Some(parent)
  }

  /** Indices without a gap, and every entry but the first lies on the one it was minted on. */
  ghost predicate Linked(logs: seq<LogEntry>, minted: map<Key, Mint>) {
    && Contiguous(logs)
    && (forall i :: 0 <= i < |logs| ==> EntryMinted(logs[i], minted))
    && (forall i :: 0 < i < |logs| ==> FollowsOn(logs[i], KeyOf(logs[i - 1]), minted))
  }

  ghost predicate RequestLinked(q: AppendRequest, minted: map<Key, Mint>) {
    q.entries != [] ==>
      && Linked(q.entries, minted)
      && (q.prevLogTerm >= 1 ==>
            && q.prevLogIndex >= 0 && q.entries[0].index == q.prevLogIndex + 1
            && FollowsOn(q.entries[0], Key(q.prevLogTerm, q.prevLogIndex), minted))
  }

  ghost predicate MsgLinked(m: Msg, minted: map<Key, Mint>) {
    m.AppendAsk? || m.AppendAnswer? ==> RequestLinked(m.append, minted)
  }

  ghost predicate NodeLinked(n: Node, minted: map<Key, Mint>) {
    && Linked(n.logs, minted)
    && (n.disk.Some? ==> Linked(n.disk.value.entries, minted))
    && (n.role != Follower ==> n.currentTerm >= 1)
  }

  ghost predicate AllLinked(c: Cluster) {
    && (forall n <- c.hosts :: NodeLinked(c.hosts[n].node, c.minted))
    && (forall r <- c.net :: MsgLinked(r.msg, c.minted))
  }

  /** A log some node has in memory or on disk, or that a request in flight carries. */
  ghost predicate Held(c: Cluster, logs: seq<LogEntry>) {
    || (exists n <- c.hosts :: c.hosts[n].node.logs == logs)
    || (exists n <- c.hosts :: c.hosts[n].node.disk.Some? && c.hosts[n].node.disk.value.entries == logs)
    || (exists r <- c.net :: (r.msg.AppendAsk? || r.msg.AppendAnswer?) && r.msg.append.entries == logs)
  }

  ghost predicate Extends(minted: map<Key, Mint>, minted': map<Key, Mint>) {
    forall k <- minted :: k in minted' && minted'[k] == minted[k]
  }

  // ---------- logs ----------

  lemma LinkedExtends(logs: seq<LogEntry>, minted: map<Key, Mint>, minted': map<Key, Mint>)
    requires Linked(logs, minted) && Extends(minted, minted')
    ensures Linked(logs, minted')
  {
    forall i | 0 <= i < |logs| ensures EntryMinted(logs[i], minted') {
      assert EntryMinted(logs[i], minted);
    }
    forall i | 0 < i < |logs| ensures FollowsOn(logs[i], KeyOf(logs[i - 1]), minted') {
      assert FollowsOn(logs[i], KeyOf(logs[i - 1]), minted);
    }
  }

  lemma MsgLinkedExtends(m: Msg, minted: map<Key, Mint>, minted': map<Key, Mint>)
    requires MsgLinked(m, minted) && Extends(minted, minted')
    ensures MsgLinked(m, minted')
  {
    if (m.AppendAsk? || m.AppendAnswer?) && m.append.entries != [] {
      LinkedExtends(m.append.entries, minted, minted');
    }
  }

  lemma NodeLinkedExtends(n: Node, minted: map<Key, Mint>, minted': map<Key, Mint>)
    requires NodeLinked(n, minted) && Extends(minted, minted')
    ensures NodeLinked(n, minted')
  {
    LinkedExtends(n.logs, minted, minted');
    if n.disk.Some? {
      LinkedExtends(n.disk.value.entries, minted, minted');
    }
  }

  /** A freshly minted entry on top of its leader's log. */
  lemma MintedLogIsLinked(n: Node, cmd: string, minted: map<Key, Mint>)
    requires CanMint(n) && Linked(n.logs, minted) && n.currentTerm >= 1
    requires KeyOf(Minted(n, cmd)) !in minted
    ensures Linked(n.logs + [Minted(n, cmd)], minted[KeyOf(Minted(n, cmd)) := Mint(cmd, LastKey(n.logs))])
  {
    var minted' := minted[KeyOf(Minted(n, cmd)) := Mint(cmd, LastKey(n.logs))];
    LinkedExtends(n.logs, minted, minted');
    ContiguousBounds(n.logs);
  }

  /** The log a follower makes of an accepted request. */
  lemma SpliceIsLinked(logs: seq<LogEntry>, q: AppendRequest, minted: map<Key, Mint>)
    requires Linked(logs, minted) && RequestLinked(q, minted) && q.entries != []
    ensures Linked(Splice(logs, q.prevLogTerm, q.prevLogIndex, q.entries), minted)
  {
    SpliceSpec(logs, q.prevLogTerm, q.prevLogIndex, q.entries);
    ContiguousBounds(logs);
    if logs != [] && logs[0].index <= q.prevLogIndex <= LastLogIndex(logs) {
      assert EntryMinted(logs[q.prevLogIndex - logs[0].index], minted);
    }
  }

  /** What a leader sends of its log is a linked piece of it, and its prev pointer is the entry before. */
  lemma SentRequestIsLinked(n: Node, peer: Peer, minted: map<Key, Mint>)
    requires Linked(n.logs, minted)
    requires AppendRequestFor(n, peer, false).Some?
    ensures RequestLinked(AppendRequestFor(n, peer, false).value, minted)
  {
    var next := peer.nextIndex;
    EntriesFromSpec(n.logs, next);
    ContiguousBounds(n.logs);
    if next > 0 {
      GetLogByIndexSpec(n.logs, next - 1);
    }
    if n.logs != [] && BaseLogIndex(n.logs) <= next <= LastLogIndex(n.logs) {
      var at := next - BaseLogIndex(n.logs);
      assert at > 0 ==> FollowsOn(n.logs[at], KeyOf(n.logs[at - 1]), minted);
      assert EntryMinted(n.logs[at], minted);
    }
  }

  // ---------- handlers ----------

  lemma ClientKeepsLinked(n: Node, cmd: string, minted: map<Key, Mint>)
    requires NodeLinked(n, minted) && CanMint(n) && Accepts(n) && KeyOf(Minted(n, cmd)) !in minted
    ensures var minted' := minted[KeyOf(Minted(n, cmd)) := Mint(cmd, LastKey(n.logs))];
            && NodeLinked(DoLog(n, cmd).node, minted')
            && forall p <- DoLog(n, cmd).calls :: MsgLinked(DoLog(n, cmd).calls[p], minted')
  {
    var minted' := minted[KeyOf(Minted(n, cmd)) := Mint(cmd, LastKey(n.logs))];
    MintedLogIsLinked(n, cmd, minted);
    var d := Dump(n.(logs := n.logs + [Minted(n, cmd)]));
    forall p <- DoLog(n, cmd).calls ensures MsgLinked(DoLog(n, cmd).calls[p], minted') {
      SentRequestIsLinked(d, d.peers[p], minted');
    }
  }

  lemma AppendKeepsLinked(n: Node, q: AppendRequest, minted: map<Key, Mint>)
    requires NodeLinked(n, minted) && RequestLinked(q, minted)
    ensures NodeLinked(OnAppendRequest(n, q).0, minted)
  {
    if q.entries != [] {
      SpliceIsLinked(n.logs, q, minted);
    }
  }

  /** The other handlers leave the log alone, persist it, or load it. */
  lemma OthersKeepLinked(h: Host, a: Action, minted: map<Key, Mint>)
    requires Ready(h, a) && NodeLinked(h.node, minted) && !Mints(h, a) && !a.AppendArrives? && !a.Crash?
    requires Campaigns(h, a) ==> h.node.currentTerm < MAX_UINT64
    requires IsDelivery(a) ==> MsgLinked(a.r.msg, minted)
    requires a.Start? ==> h.node.role == Follower
    ensures NodeLinked(NodeAfter(h, a), minted)
  {
    hide OnAppendReply, Linked, Splice, Pushes, EntriesFrom, AppendCalls;
    if a.AppendReplyArrives? {
      ReplyMovesIndices(h.node, a.r.msg.reply, a.r.msg.isHeartbeat);
    }
  }

  lemma HandlerKeepsLinked(h: Host, a: Action, minted: map<Key, Mint>)
    requires Ready(h, a) && NodeLinked(h.node, minted)
    requires Mints(h, a) ==> KeyOf(Minted(h.node, a.cmd)) !in minted
    requires Campaigns(h, a) ==> h.node.currentTerm < MAX_UINT64
    requires IsDelivery(a) ==> MsgLinked(a.r.msg, minted)
    requires a.Start? ==> h.node.role == Follower
    ensures NodeLinked(NodeAfter(h, a), MintAfter(minted, h, a))
    ensures forall p <- Calls(h, a) :: MsgLinked(Calls(h, a)[p], MintAfter(minted, h, a))
    ensures Extends(minted, MintAfter(minted, h, a))
  {
    hide Linked, Splice, Pushes, EntriesFrom;
    if Mints(h, a) {
      ClientKeepsLinked(h.node, a.cmd, minted);
    } else if a.AppendArrives? {
      AppendKeepsLinked(h.node, a.r.msg.append, minted);
    } else if a.Crash? {
      EmptyIsLinked(minted);
    } else {
      OthersKeepLinked(h, a, minted);
    }
  }

  lemma EmptyIsLinked(minted: map<Key, Mint>)
    ensures Linked([], minted)
  {
  }

  lemma StepKeepsLinked(c: Cluster, a: Action)
    requires WellFormed(c) && AllLinked(c) && Enabled(c, a) && TermDoesNotWrap(c, a) && MintIsFresh(c, a)
    ensures AllLinked(Next(c, a))
  {
    hide Next, HostAfter, NodeAfter, Calls, Added, MintAfter, WellFormed, StoreAfter, NodeLinked, MsgLinked, Extends;
    var h, c' := c.hosts[Subject(a)], Next(c, a);
    NextParts(c, a);
    SubjectIsOK(c, a);
    HandlerKeepsLinked(h, a, c.minted);
    forall n <- c'.hosts ensures NodeLinked(c'.hosts[n].node, c'.minted) {
      if n != Subject(a) {
        NodeLinkedExtends(c.hosts[n].node, c.minted, c'.minted);
      }
    }
    forall r <- c'.net ensures MsgLinked(r.msg, c'.minted) {
      if r in c.net {
        MsgLinkedExtends(r.msg, c.minted, c'.minted);
      } else {
        AddedIsLinked(h, c.clock, a, c.minted, r);
      }
    }
  }

  /** An answer carries the request it answers. */
  lemma AddedIsLinked(h: Host, clock: nat, a: Action, minted: map<Key, Mint>, r: Rpc)
    requires Ready(h, a) && r in Added(h, clock, a)
    requires IsDelivery(a) ==> MsgLinked(a.r.msg, minted)
    requires forall p <- Calls(h, a) :: MsgLinked(Calls(h, a)[p], MintAfter(minted, h, a))
    ensures MsgLinked(r.msg, MintAfter(minted, h, a))
  {
    hide RequestLinked, OnTimer, DoLog;
  }

  lemma {:induction false} RunKeepsLinked(cs: seq<Cluster>, acts: seq<Action>, k: nat)
    requires IsRun(cs, acts) && TermsDoNotWrap(cs, acts) && MintsAreFresh(cs, acts) && k < |cs|
    ensures WellFormed(cs[k]) && AllLinked(cs[k])
  {
    if k == 0 {
      InitIsWellFormed(cs[0]);
    } else {
      RunKeepsLinked(cs, acts, k - 1);
      StaysWellFormed(cs[k - 1], acts[k - 1]);
      StepKeepsLinked(cs[k - 1], acts[k - 1]);
    }
  }

  // ---------- the theorem ----------

  /** From a common (term, index) downwards, two linked logs hold the same entries. */
  lemma {:induction false} AgreeBelow(
    a: seq<LogEntry>, b: seq<LogEntry>, i: nat, j: nat, d: nat, minted: map<Key, Mint>)
    requires Linked(a, minted) && Linked(b, minted)
    requires d <= i < |a| && d <= j < |b| && KeyOf(a[i]) == KeyOf(b[j])
    ensures a[i - d] == b[j - d]
  {
    if d == 0 {
      assert EntryMinted(a[i], minted) && EntryMinted(b[j], minted);
    } else {
      AgreeBelow(a, b, i, j, d - 1, minted);
      var x, y := i - d, j - d;
      assert FollowsOn(a[x + 1], KeyOf(a[x]), minted) && FollowsOn(b[y + 1], KeyOf(b[y]), minted);
      assert EntryMinted(a[x], minted) && EntryMinted(b[y], minted);
    }
  }

  lemma HeldIsLinked(c: Cluster, logs: seq<LogEntry>)
    requires AllLinked(c) && Held(c, logs)
    ensures Linked(logs, c.minted)
  {
    hide Linked;
    if n :| n in c.hosts && c.hosts[n].node.logs == logs {
      assert NodeLinked(c.hosts[n].node, c.minted);
    } else if n :| n in c.hosts && c.hosts[n].node.disk.Some? && c.hosts[n].node.disk.value.entries == logs {
      assert NodeLinked(c.hosts[n].node, c.minted);
    } else {
      var r :| r in c.net && (r.msg.AppendAsk? || r.msg.AppendAnswer?) && r.msg.append.entries == logs;
      assert MsgLinked(r.msg, c.minted);
      if logs == [] {
        EmptyIsLinked(c.minted);
      }
    }
  }

  /** Every log anywhere in a run has contiguous indices. */
  lemma LogsAreContiguous(cs: seq<Cluster>, acts: seq<Action>, k: nat, logs: seq<LogEntry>)
    requires IsRun(cs, acts) && TermsDoNotWrap(cs, acts) && MintsAreFresh(cs, acts) && k < |cs|
    requires Held(cs[k], logs)
    ensures Contiguous(logs)
  {
    RunKeepsLinked(cs, acts, k);
    HeldIsLinked(cs[k], logs);
  }

  /** If two logs hold the same index and term, they hold the same entry at every index up to it that both hold. */
  lemma LogsMatch(cs: seq<Cluster>, acts: seq<Action>, k: nat, a: seq<LogEntry>, b: seq<LogEntry>, i: nat, j: nat,
    x: nat, y: nat)
    requires IsRun(cs, acts) && TermsDoNotWrap(cs, acts) && MintsAreFresh(cs, acts) && k < |cs|
    requires Held(cs[k], a) && Held(cs[k], b)
    requires i < |a| && j < |b| && a[i].term == b[j].term && a[i].index == b[j].index
    requires x <= i && y <= j && a[x].index == b[y].index
    ensures a[x] == b[y]
  {
    RunKeepsLinked(cs, acts, k);
    HeldIsLinked(cs[k], a);
    HeldIsLinked(cs[k], b);
    assert i - x == j - y;
    AgreeBelow(a, b, i, j, i - x, cs[k].minted);
  }
}
