/** The SRaft object: its fields change in place, and each method computes the step of RaftNode. */
module SRaftServer {
  import opened Common
  import opened MachineInts
  import opened RaftLog
  import Spec = RaftNode
  import opened Channels

  type Name = Spec.Name
  type Node = Spec.Node
  type Msg = Spec.Msg

  const HEARTBEAT_MS: nat := 30
  const ELECTION_FAIL_MS: nat := 500

  /** The file named after the node; it outlives the process. */
  class PersistFile {
    var content: Option<Spec.PersistRecord>

    constructor ()
      ensures content == None
    {
      content := None;
    }
  }

  class SRaft {
    const addrStr: Name
    const channel: MyChannel?
    const file: PersistFile

    var running: bool
    var state: Spec.Role
    var logs: seq<LogEntry>
    var votedFor: Name
    var votesReceived: nat
    var commitIndex: LastIndex
    var lastApplied: LastIndex
    var currentTerm: Uint64
    var peers: map<Name, Spec.Peer>

    var dueHeartBeat: nat
    var dueElection: nat
    var dueElectionFail: nat

    ghost function View(): Node
      reads this, file
    {
      Spec.Node(addrStr, running, state, logs, votedFor, votesReceived, commitIndex, lastApplied, currentTerm,
                peers, file.content)
    }

    /** When the next heartbeat, election and election failure are due. */
    ghost function Dues(): (nat, nat, nat)
      reads this`dueHeartBeat, this`dueElection, this`dueElectionFail
    {
      (dueHeartBeat, dueElection, dueElectionFail)
    }

    ghost function Queue(): seq<string>
      reads this, channel
    {
      if channel == null then [] else channel.que
    }

    /** What reaches the channel of the given pushes: all of them, or none without a channel. */
    ghost function Delivered(pushed: seq<string>): seq<string> {
      if channel == null then [] else pushed
    }

    constructor (addrStr: Name, channel: MyChannel?, file: PersistFile)
      ensures this.addrStr == addrStr && this.channel == channel && this.file == file
      ensures View() == Spec.Boot(addrStr, {}, file.content)
    {
      this.addrStr := addrStr;
      this.channel := channel;
      this.file := file;
      running, state, logs, votedFor, votesReceived := false, Spec.Follower, [], "", 0;
      commitIndex, lastApplied, currentTerm, peers := -1, -1, 0, map[];
      dueHeartBeat, dueElection, dueElectionFail := 0, 0, 0;
    }

    method AddPeer(name: Name)
      modifies this`peers
      ensures View() == old(View()).(peers := old(peers)[name := Spec.Peer(0, -1)])
    {
      peers := peers[name := Spec.Peer(0, -1)];
    }

    method Run(now: nat, jitter: nat)
      modifies this`running, this`currentTerm, this`votedFor, this`logs, this`dueElection
      ensures View() == Spec.Run(old(View()))
      ensures Dues() == (old(dueHeartBeat), now + jitter, old(dueElectionFail))
    {
      Load();
      running := true;
      dueElection := now + jitter;
    }

    method Dump()
      modifies file
      ensures View() == Spec.Dump(old(View()))
    {
      var entries := [];
      for i := 0 to |logs|
        invariant entries == logs[..i]
      {
        entries := entries + [logs[i]];
      }
      assert logs[..|logs|] == logs;
      file.content := Some(Spec.PersistRecord(currentTerm, votedFor, entries));
    }

    method Load()
      modifies this`currentTerm, this`votedFor, this`logs
      ensures View() == Spec.Load(old(View()))
    {
      if file.content.None? {
        return;
      }
      var record := file.content.value;
      currentTerm := record.term;
      votedFor := record.votedFor;
      logs := [];
      for i := 0 to |record.entries|
        invariant logs == record.entries[..i]
        invariant currentTerm == record.term && votedFor == record.votedFor
      {
        logs := logs + [record.entries[i]];
      }
      assert record.entries[..|record.entries|] == record.entries;
    }

    /**
     now and electionNow are two readings of a clock that may have been set back in between; an election
     then fails in the tick that started it, as it does in two steps of the cluster.
     */
    method OnTimer(now: nat, electionNow: nat, jitter: nat) returns (calls: map<Name, Msg>)
      modifies this, file
      ensures var e := Spec.OnTimer(
                old(View()), now > old(dueHeartBeat), now > old(dueElection), now > old(dueElectionFail));
              var setBack := old(state) == Spec.Follower && now > electionNow + ELECTION_FAIL_MS;
              && View() == (if setBack then Spec.OnTimer(e.node, false, false, true).node else e.node)
              && calls == e.calls && e.pushed == []
      ensures var campaigns := old(running && state == Spec.Follower && now > dueElection);
              var fails := old(running && state == Spec.Candidate && now > dueElectionFail) ||
                           (campaigns && peers != map[] && now > electionNow + ELECTION_FAIL_MS);
              && dueHeartBeat == (if old(running && state == Spec.Leader && now > dueHeartBeat && peers != map[])
                                  then now + HEARTBEAT_MS else old(dueHeartBeat))
              && dueElection == (if fails then electionNow + jitter else old(dueElection))
              && dueElectionFail == (if campaigns then electionNow + ELECTION_FAIL_MS else old(dueElectionFail))
    {
      calls := map[];
      if !running {
        return;
      }
      if state == Spec.Leader && now > dueHeartBeat && peers != map[] {
        dueHeartBeat := now + HEARTBEAT_MS;
        calls := SendAppendEntries(true);
      }
      if state == Spec.Follower && now > dueElection {
        calls := DoElection(electionNow);
      }
      if state == Spec.Candidate && now > dueElectionFail {
        state := Spec.Follower;
        dueElection := electionNow + jitter;
      }
    }

    /** The part of an election that is persisted before any request. */
    method BecomeCandidate()
      modifies this`state, this`currentTerm, this`votesReceived, this`votedFor, file
      ensures View() == Spec.Candidacy(old(View()))
    {
      state := Spec.Candidate;
      currentTerm := ToU64(currentTerm + 1);
      votesReceived := 1;
      votedFor := addrStr;
      Dump();
    }

    method DoElection(now: nat) returns (calls: map<Name, Msg>)
      modifies this`state, this`currentTerm, this`votesReceived, this`votedFor, this`dueElectionFail, file
      ensures var e := Spec.Election(old(View()));
              View() == e.node && calls == e.calls && e.pushed == []
      ensures Dues() == (old(dueHeartBeat), old(dueElection), now + ELECTION_FAIL_MS)
    {
      BecomeCandidate();
      hide Spec.Candidacy;
      dueElectionFail := now + ELECTION_FAIL_MS;
      ghost var c := View();
      if peers == map[] {
        state := Spec.Leader;
      }
      assert Spec.VoteRequestOf(View()) == Spec.VoteRequestOf(c);
      calls := SendVoteRequests();
    }

    /** The loop over the peers of an election. */
    method SendVoteRequests() returns (calls: map<Name, Msg>)
      ensures calls == map p | p in peers :: Spec.VoteAsk(Spec.VoteRequestOf(View()))
    {
      calls := map[];
      ghost var all := map p | p in peers :: Spec.VoteAsk(Spec.VoteRequestOf(View()));
      var todo := peers.Keys;
      while todo != {}
        invariant todo <= peers.Keys
        invariant calls == map p | p in all && p !in todo :: all[p]
      {
        var p :| p in todo;
        var lastLogTerm := if |logs| > 0 then LastLogTerm(logs) else MAX_UINT64;
        var request := Spec.VoteRequest(addrStr, currentTerm, ToI64(|logs| - 1), lastLogTerm);
        calls := calls[p := Spec.VoteAsk(request)];
        todo := todo - {p};
      }
    }

    /** 1 when the command was logged, -1 when the node is not running, -2 when it is not the leader. */
    method DoLog(cmd: string) returns (result: int, calls: map<Name, Msg>)
      requires Spec.CanMint(View())
      modifies this`logs, this`commitIndex, this`lastApplied, file, channel
      ensures var e := Spec.DoLog(old(View()), cmd);
              View() == e.node && calls == e.calls && Queue() == old(Queue()) + Delivered(e.pushed)
      ensures result == if !old(running) then -1 else if old(state) != Spec.Leader then -2 else 1
      ensures Dues() == old(Dues())
    {
      calls := map[];
      if !running {
        return -1, calls;
      }
      if state != Spec.Leader {
        return -2, calls;
      }
      var entry := LogEntry(LastLogIndex(logs) + 1, currentTerm, cmd);
      logs := logs + [entry];
      Dump();
      calls := DoAppendEntries();
      result := 1;
    }

    /** pushData, when there is a channel. */
    method Push(cmd: string)
      modifies channel
      ensures Queue() == old(Queue()) + Delivered([cmd])
    {
      if channel != null {
        channel.PushData(cmd);
      }
    }

    /** The command at an index, empty for a blank entry. */
    method CommandAt(index: LastIndex) returns (cmd: string)
      requires index >= 0
      ensures forall from: LastIndex :: from < index ==>
                Spec.Pushes(logs, from, index) == Spec.Pushes(logs, from, index - 1) + if cmd == "" then [] else [cmd]
    {
      var entry := GetLogByIndex(logs, ToU64(index));
      cmd := if entry.Some? then entry.value.data else "";
      hide GetLogByIndex;
    }

    method DoApply()
      modifies this`lastApplied, channel
      ensures View() == Spec.Apply(old(View())).node
      ensures Queue() == old(Queue()) + Delivered(Spec.Apply(old(View())).pushed)
    {
      hide Spec.Pushes;
      ghost var from := lastApplied;
      ghost var pushed := [];
      assert Spec.Pushes(logs, from, from) == [] by { Spec.NothingToPush(logs, from, from); }
      while lastApplied < commitIndex
        invariant from <= lastApplied <= Max(from, commitIndex)
        invariant pushed == Spec.Pushes(logs, from, lastApplied)
        invariant Queue() == old(Queue()) + Delivered(pushed)
      {
        lastApplied := lastApplied + 1;
        var cmd := CommandAt(lastApplied);
        if cmd != "" {
          Push(cmd);
          pushed := pushed + [cmd];
        }
      }
      if from > commitIndex {
        Spec.NothingToPush(logs, from, commitIndex);
      }
    }

    /** The replicating form, called by DoLog once the new entry is in the log. */
    method DoAppendEntries() returns (calls: map<Name, Msg>)
      modifies this`commitIndex, this`lastApplied, channel
      ensures var n := old(View());
              var e := if n.peers == map[] then Spec.Apply(n.(commitIndex := LastLogIndex(n.logs)))
                       else Spec.Effect(n, Spec.AppendCalls(n, false), []);
              View() == e.node && calls == e.calls && Queue() == old(Queue()) + Delivered(e.pushed)
    {
      calls := map[];
      if peers == map[] {
        commitIndex := LastLogIndex(logs);
        DoApply();
      }
      calls := SendAppendEntries(false);
    }

    /** The loop over the peers, for a heartbeat or for replication. */
    method SendAppendEntries(isHeartbeat: bool) returns (calls: map<Name, Msg>)
      ensures calls == Spec.AppendCalls(View(), isHeartbeat)
    {
      calls := map[];
      ghost var all := Spec.AppendCalls(View(), isHeartbeat);
      var todo := peers.Keys;
      while todo != {}
        invariant todo <= peers.Keys
        invariant calls == map p | p in all && p !in todo :: all[p]
      {
        var p :| p in todo;
        var request := Spec.AppendRequest(addrStr, currentTerm, -1, MAX_UINT64, commitIndex, []);
        var blank := false;
        if !isHeartbeat {
          var prevLogIndex := peers[p].nextIndex - 1;
          var prev := if prevLogIndex > -1 then GetLogByIndex(logs, prevLogIndex) else None;
          var entries;
          entries, blank := CollectEntries(peers[p].nextIndex);
          request := request.(prevLogIndex := prevLogIndex,
                              prevLogTerm := if prev.Some? then prev.value.term else 0,
                              entries := entries);
        }
        if !blank {
          calls := calls[p := Spec.AppendAsk(request, isHeartbeat)];
        }
        todo := todo - {p};
      }
    }

    /** The entries of one request; blank tells that an index outside the log was read. */
    method CollectEntries(nextIndex: NextIndex) returns (entries: seq<LogEntry>, blank: bool)
      ensures blank == EntriesFrom(logs, nextIndex).None?
      ensures !blank ==> entries == EntriesFrom(logs, nextIndex).value
    {
      entries, blank := [], false;
      var i: int := nextIndex;
      while i <= LastLogIndex(logs)
        invariant nextIndex <= i <= Max(nextIndex, LastLogIndex(logs) + 1)
        invariant blank || EntriesFrom(logs, i).None? ==> EntriesFrom(logs, nextIndex).None?
        invariant !blank && EntriesFrom(logs, i).Some? ==>
                    EntriesFrom(logs, nextIndex).Some? &&
                    EntriesFrom(logs, nextIndex).value == entries + EntriesFrom(logs, i).value
        decreases LastLogIndex(logs) - i
      {
        var entry := GetLogByIndex(logs, i);
        if entry.Some? {
          entries := entries + [entry.value];
        } else {
          blank := true;
        }
        i := i + 1;
      }
    }

    /** The backward search; -1 returned as a uint64_t. */
    method FindLog(term: Uint64, index: Uint64) returns (r: Uint64)
      ensures r == ToU64(RaftLog.FindLog(logs, term, index))
    {
      var i := |logs| - 1;
      while i >= 0
        invariant -1 <= i < |logs|
        invariant forall k :: i < k < |logs| ==> !Matches(logs[k], term, index)
      {
        if logs[i].term == term && ToU64(logs[i].index) == index {
          return ToU64(i);
        }
        i := i - 1;
      }
      return ToU64(-1);
    }

    /** erase and insert, from the position FindLog returns. */
    method ReplaceTail(request: Spec.AppendRequest)
      modifies this`logs
      ensures logs == Splice(old(logs), request.prevLogTerm, request.prevLogIndex, request.entries)
    {
      var found: int := FindLog(request.prevLogTerm, ToU64(request.prevLogIndex));
      var kept := ToU64(found + 1);
      logs := logs[..kept];
      logs := logs + request.entries;
    }

    method OnAppendEntriesRequest(request: Spec.AppendRequest, now: nat, jitter: nat)
      returns (response: Spec.AppendResponse)
      modifies this`state, this`currentTerm, this`logs, this`dueElection, file
      ensures (View(), response) == Spec.OnAppendRequest(old(View()), request)
      ensures Dues() ==
              (old(dueHeartBeat),
               if old(running) && request.term >= old(currentTerm) && request.entries == []
               then now + jitter else old(dueElection),
               old(dueElectionFail))
    {
      hide Splice;
      response := Spec.AppendResponse(addrStr, currentTerm, false, LastLogIndex(logs), LastLogTerm(logs));
      if !running {
        return;
      }
      if request.term < currentTerm {
        return;
      }
      if |request.entries| == 0 {
        dueElection := now + jitter;
        state := Spec.Follower;
        currentTerm := request.term;
        return;
      }
      if request.prevLogIndex >= BaseLogIndex(logs) {
        ReplaceTail(request);
        response := response.(success := true, lastLogIndex := LastLogIndex(logs), lastLogTerm := LastLogTerm(logs));
      }
      Dump();
    }

    method OnAppendEntriesResponse(response: Spec.AppendResponse, isHeartbeat: bool)
      requires response.name in peers
      modifies this`state, this`peers, this`commitIndex, this`lastApplied, file, channel
      ensures var e := Spec.OnAppendReply(old(View()), response, isHeartbeat);
              View() == e.node && e.calls == map[] && Queue() == old(Queue()) + Delivered(e.pushed)
      ensures Dues() == old(Dues())
    {
      hide Spec.TakeSuccess;
      if state != Spec.Leader {
        return;
      }
      if response.term > currentTerm {
        state := Spec.Follower;
        Dump();
      }
      if isHeartbeat {
        return;
      }
      var peer := peers[response.name];
      if !response.success {
        peers := peers[response.name := peer.(nextIndex := response.lastLogIndex + 1)];
        return;
      }
      var newCommit := response.lastLogIndex;
      if newCommit <= commitIndex {
        return;
      }
      TakeSuccess(response);
    }

    /** The end of the handler, for a success past the commit index. */
    method TakeSuccess(response: Spec.AppendResponse)
      requires response.name in peers
      modifies this`peers, this`commitIndex, this`lastApplied, channel
      ensures var e := Spec.TakeSuccess(old(View()), response);
              View() == e.node && e.calls == map[] && Queue() == old(Queue()) + Delivered(e.pushed)
    {
      var newCommit := response.lastLogIndex;
      var peer := peers[response.name].(nextIndex := response.lastLogIndex + 1, matchIndex := response.lastLogIndex);
      peers := peers[response.name := peer];
      var commitVote := CountMatching(newCommit);
      if commitVote >= |peers| / 2 {
        commitIndex := newCommit;
        DoApply();
      }
    }

    /** The commit vote: this node and every peer whose match index reaches newCommit. */
    method CountMatching(newCommit: LastIndex) returns (commitVote: nat)
      ensures commitVote == 1 + |Spec.Matching(peers, newCommit)|
    {
      commitVote := 1;
      var todo := peers.Keys;
      ghost var counted: set<Name> := {};
      while todo != {}
        invariant todo <= peers.Keys
        invariant counted == Spec.Matching(peers, newCommit) - todo
        invariant commitVote == 1 + |counted|
      {
        var p :| p in todo;
        todo := todo - {p};
        if peers[p].matchIndex >= newCommit {
          commitVote := commitVote + 1;
          counted := counted + {p};
        }
      }
    }

    method OnRequestVoteRequest(request: Spec.VoteRequest) returns (response: Option<Spec.VoteResponse>)
      modifies this`state, this`currentTerm, file
      ensures (View(), response) == Spec.OnVoteRequest(old(View()), request)
      ensures Dues() == old(Dues())
    {
      if !running {
        return None;
      }
      var answer := Spec.VoteResponse(addrStr, currentTerm, false);
      var candidateLogTermOld := Spec.CandidateTermOld(logs, request);
      var candidateLogIndexOld := Spec.CandidateIndexOld(logs, request);
      if request.term <= currentTerm {
        return Some(answer);
      } else {
        currentTerm := request.term;
      }
      if candidateLogIndexOld {
        return Some(answer);
      }
      if candidateLogTermOld {
        return Some(answer);
      }
      if state == Spec.Leader {
        state := Spec.Follower;
      }
      answer := answer.(voteGranted := true);
      Dump();
      return Some(answer);
    }

    method OnRequestVoteResponse(response: Spec.VoteResponse)
      modifies this`state, this`currentTerm, this`votesReceived, file
      ensures View() == Spec.OnVoteReply(old(View()), response)
      ensures Dues() == old(Dues())
    {
      if response.term > currentTerm {
        state := Spec.Follower;
        Dump();
        currentTerm := response.term;
      }
      if state != Spec.Candidate {
        return;
      }
      if response.voteGranted {
        votesReceived := votesReceived + 1;
        if votesReceived > |peers| / 2 {
          state := Spec.Leader;
        }
      }
    }
  }
}
