/**
 A server without peers: through any number of crashes, the first write after a restart replays the
 whole persisted log, so a drained channel leaves the database of every write ever accepted.
 */
module LoneServer {
  import opened RaftLog
  import opened RaftNode
  import opened Commands
  import opened Cluster
  import opened SoleLeader

  /** The log holds exactly the written commands, in order. */
  ghost predicate Records(logs: seq<LogEntry>, written: seq<string>) {
    |logs| == |written| && forall i :: 0 <= i < |logs| ==> logs[i].data == written[i]
  }

  function NonEmpty(cmds: seq<string>): seq<string> {
    if cmds == [] then []
    else
      var last := cmds[|cmds| - 1];
      NonEmpty(cmds[..|cmds| - 1]) + if last == "" then [] else [last]
  }

  ghost predicate LoneNode(n: Node, written: seq<string>) {
    && n.peers == map[]
    && Dense(DiskLogs(n)) && Records(DiskLogs(n), written)
    && (n.running ==> n.logs == DiskLogs(n))
    && (!n.running ==> n.logs == [] && n.role == Follower)
    && n.lastApplied == n.commitIndex
    && (n.commitIndex == -1 || n.commitIndex == |n.logs| - 1)
  }

  ghost predicate Lone(c: Cluster, n: Name) {
    && c.hosts.Keys == {n} && c.net == {}
    && LoneNode(c.hosts[n].node, c.hosts[n].written)
    && StoreOK(c.hosts[n].node, c.hosts[n].store)
  }

  lemma {:induction false} RecordedData(logs: seq<LogEntry>, written: seq<string>)
    requires Records(logs, written)
    ensures NonEmptyData(logs) == NonEmpty(written)
  {
    if logs != [] {
      RecordedData(logs[..|logs| - 1], written[..|written| - 1]);
    }
  }

  /** Empty commands would change nothing anyway. */
  lemma {:induction false} EmptyCommandsDoNothing(db: Database, cmds: seq<string>)
    ensures ExecuteAll(db, NonEmpty(cmds)) == ExecuteAll(db, cmds)
  {
    if cmds != [] {
      var init, last := cmds[..|cmds| - 1], cmds[|cmds| - 1];
      EmptyCommandsDoNothing(db, init);
      if last == "" {
        assert NonEmpty(cmds) == NonEmpty(init);
        ParseTakesThreeWords("");
      } else {
        ExecuteOneMore(db, NonEmpty(init), last);
      }
    }
  }

  lemma WriteKeepsLone(h: Host, cmd: string)
    requires CanMint(h.node) && Accepts(h.node) && LoneNode(h.node, h.written) && StoreOK(h.node, h.store)
    ensures var e := DoLog(h.node, cmd);
            && LoneNode(e.node, h.written + [cmd]) && e.node.commitIndex == |e.node.logs| - 1 >= 0
            && StoreOK(e.node, h.store.(queue := h.store.queue + e.pushed))
            && e.calls == map[]
  {
    hide ExecuteAll, Pushes, AppendCalls;
    var n := h.node;
    DenseIsSlice(n.logs);
    var logs := n.logs + [Minted(n, cmd)];
    assert Dense(logs) && Records(logs, h.written + [cmd]);
    DenseIsSlice(logs);
    CommitKeepsStore(n.logs, logs, h.store, n.lastApplied, |logs| - 1);
  }

  lemma TimerKeepsLone(n: Node, written: seq<string>, hb: bool, el: bool, ef: bool)
    requires LoneNode(n, written)
    ensures var e := OnTimer(n, hb, el, ef);
            && LoneNode(e.node, written) && e.calls == map[]
            && e.node.logs == n.logs && e.node.lastApplied == n.lastApplied
  {
    hide AppendCalls;
  }

  lemma BootIsLone(n: Node, written: seq<string>)
    requires LoneNode(n, written)
    ensures LoneNode(Boot(n.name, n.peers.Keys, n.disk), written)
  {
  }

  lemma StartKeepsLone(n: Node, written: seq<string>)
    requires LoneNode(n, written) && !n.running
    ensures LoneNode(Run(n), written) && Run(n).lastApplied == n.lastApplied == -1
  {
  }

  lemma OthersKeepLone(h: Host, a: Action)
    requires Ready(h, a) && LoneNode(h.node, h.written) && StoreOK(h.node, h.store)
    requires !IsDelivery(a) && !(a.Client? && Accepts(h.node))
    ensures LoneNode(NodeAfter(h, a), h.written) && Calls(h, a) == map[]
    ensures StoreOK(NodeAfter(h, a), StoreAfter(h, a))
  {
    hide Pushes, ExecuteAll, DoLog, OnTimer, LoneNode, Boot, Run;
    NothingPushedYet();
    match a
    case Timer(_, hb, el, ef) => TimerKeepsLone(h.node, h.written, hb, el, ef);
    case Client(_, _) => IdleNode(h, a);
    case Crash(_) => BootIsLone(h.node, h.written); BootIsFresh(h.node);
    case Start(_) =>
      StartKeepsLone(h.node, h.written);
      NothingPushedEver(h.node.logs, Run(h.node).logs);
    case Receive(_) => ReceiveKeepsStore(h.node, h.store);
  }

  lemma BootIsFresh(n: Node)
    ensures Boot(n.name, n.peers.Keys, n.disk).logs == [] && Boot(n.name, n.peers.Keys, n.disk).lastApplied == -1
  {
  }

  lemma IdleNode(h: Host, a: Action)
    requires Ready(h, a) && a.Client? && !Accepts(h.node)
    ensures NodeAfter(h, a) == h.node && StoreAfter(h, a) == h.store && Calls(h, a) == map[]
  {
    assert h.store.queue + [] == h.store.queue;
  }

  lemma NothingPushedEver(a: seq<LogEntry>, b: seq<LogEntry>)
    ensures Pushes(a, -1, -1) == [] == Pushes(b, -1, -1)
  {
  }

  lemma StepKeepsLone(c: Cluster, a: Action, n: Name)
    requires WellFormed(c) && Lone(c, n) && Enabled(c, a)
    ensures Lone(Next(c, a), n) && !IsDelivery(a) && Subject(a) == n
    ensures Mints(c.hosts[n], a) ==> Next(c, a).hosts[n].node.commitIndex == |Next(c, a).hosts[n].node.logs| - 1 >= 0
  {
    hide WellFormed, LoneNode, StoreOK, DoLog;
    var h := c.hosts[n];
    if Mints(h, a) {
      WriteKeepsLone(h, a.cmd);
    } else {
      OthersKeepLone(h, a);
    }
  }

  lemma {:induction false} RunKeepsLone(cs: seq<Cluster>, acts: seq<Action>, n: Name, k: nat)
    requires IsRun(cs, acts) && cs[0].hosts.Keys == {n} && k < |cs|
    ensures WellFormed(cs[k]) && Lone(cs[k], n)
  {
    hide WellFormed, Enabled, Next;
    if k == 0 {
      InitIsWellFormed(cs[0]);
      NothingPushedYet();
    } else {
      RunKeepsLone(cs, acts, n, k - 1);
      StaysWellFormed(cs[k - 1], acts[k - 1]);
      StepKeepsLone(cs[k - 1], acts[k - 1], n);
    }
  }

  // ---------- main results ----------

  /** Every command ever accepted is on disk, in order, whatever crashed in between. */
  lemma AcceptedWritesSurvive(cs: seq<Cluster>, acts: seq<Action>, n: Name, k: nat)
    requires IsRun(cs, acts) && cs[0].hosts.Keys == {n} && k < |cs|
    ensures n in cs[k].hosts && Records(DiskLogs(cs[k].hosts[n].node), cs[k].hosts[n].written)
  {
    hide IsRun, WellFormed;
    RunKeepsLone(cs, acts, n, k);
  }

  /**
   An accepted write, the first after a restart or not, leaves taken and waiting commands together equal
   to every non-empty command ever accepted.
   */
  lemma WriteReplaysEverything(cs: seq<Cluster>, acts: seq<Action>, n: Name, k: nat)
    requires IsRun(cs, acts) && cs[0].hosts.Keys == {n} && k < |acts|
    requires acts[k].Client? && n in cs[k].hosts && Accepts(cs[k].hosts[n].node)
    ensures n in cs[k + 1].hosts && cs[k + 1].hosts[n].written == cs[k].hosts[n].written + [acts[k].cmd]
    ensures cs[k + 1].hosts[n].store.applied + cs[k + 1].hosts[n].store.queue == NonEmpty(cs[k + 1].hosts[n].written)
  {
    hide WellFormed, LoneNode, DoLog, ExecuteAll, Pushes;
    RunKeepsLone(cs, acts, n, k);
    StepKeepsLone(cs[k], acts[k], n);
    CommittedIsWritten(cs[k + 1].hosts[n]);
  }

  lemma CommittedIsWritten(h: Host)
    requires LoneNode(h.node, h.written) && StoreOK(h.node, h.store)
    requires h.node.commitIndex >= 0
    ensures h.store.applied + h.store.queue == NonEmpty(h.written)
  {
    var n := h.node;
    assert n.running;
    PushesAreData(n.logs, n.commitIndex);
    assert n.logs[..|n.logs|] == n.logs;
    RecordedData(n.logs, h.written);
  }

  /**
   Once a write was accepted since the last restart and the channel has drained, the database is the
   sequential execution of every command ever accepted; before it, the database is the initial one.
   */
  lemma DrainedDatabaseIsWholeHistory(cs: seq<Cluster>, acts: seq<Action>, n: Name, k: nat)
    requires IsRun(cs, acts) && cs[0].hosts.Keys == {n} && k < |cs|
    ensures n in cs[k].hosts
    ensures var h := cs[k].hosts[n];
            if h.node.lastApplied >= 0 then h.store.queue == [] ==> h.store.db == ExecuteAll(INITIAL_DB, h.written)
            else h.store.applied == [] == h.store.queue && h.store.db == INITIAL_DB
  {
    hide WellFormed, IsRun, Pushes;
    RunKeepsLone(cs, acts, n, k);
    var h := cs[k].hosts[n];
    if h.node.lastApplied >= 0 {
      CommittedIsWritten(h);
      EmptyCommandsDoNothing(INITIAL_DB, h.written);
      assert h.store.queue == [] ==> h.store.applied + h.store.queue == h.store.applied;
    } else {
      NothingPushedEver(h.node.logs, []);
      assert |h.store.applied| + |h.store.queue| == 0;
    }
  }
}
