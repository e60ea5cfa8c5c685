/** A due heartbeat reaches every peer that takes part, and puts it in step with the leader's term. */
module Heartbeats {
  import opened RaftNode
  import opened Cluster
  import opened Terms

  predicate SendsHeartbeats(c: Cluster, a: Action) {
    && a.Timer? && a.heartbeatDue && a.n in c.hosts
    && c.hosts[a.n].node.running && c.hosts[a.n].node.role == Leader
  }

  /** A request without entries that carries the leader's term and its commit index. */
  predicate IsHeartbeatOf(l: Node, msg: Msg) {
    msg == AppendAsk(AppendRequest(l.name, l.currentTerm, -1, 0xffff_ffff_ffff_ffff, l.commitIndex, []), true)
  }

  /** The timer of a leader with a due heartbeat puts one in flight to every peer. */
  lemma HeartbeatsAreSent(cs: seq<Cluster>, acts: seq<Action>, i: nat, f: Name) returns (r: Rpc)
    requires IsRun(cs, acts) && i < |acts| && SendsHeartbeats(cs[i], acts[i]) && f in cs[i].hosts && f != acts[i].n
    ensures r.stamp == cs[i].clock && r.from == acts[i].n && r.to == f && r in cs[i + 1].net &&
            cs[i + 1].clock > cs[i].clock
    ensures IsHeartbeatOf(cs[i].hosts[acts[i].n].node, r.msg)
  {
    hide WellFormed, Next, HostAfter, NodeAfter, StoreAfter, VotesCast, VictoriesWon, MintAfter;
    StepOfRun(cs, acts, i);
    NextParts(cs[i], acts[i]);
    var h := cs[i].hosts[acts[i].n];
    assert f in h.node.peers.Keys;
    assert f in Calls(h, acts[i]);
    r := Rpc(cs[i].clock, acts[i].n, f, Calls(h, acts[i])[f]);
    assert r in Added(h, cs[i].clock, acts[i]);
  }

  /** A request in flight from an earlier step is the one that step sent. */
  lemma {:induction false} StampNamesCall(cs: seq<Cluster>, acts: seq<Action>, i: nat, j: nat, r: Rpc)
    requires IsRun(cs, acts) && i < j < |cs| && r in cs[j].net && r.stamp == cs[i].clock < cs[i + 1].clock
    requires r.msg.VoteAsk? || r.msg.AppendAsk?
    ensures r in cs[i + 1].net && cs[i + 1].clock <= cs[j].clock
    decreases j
  {
    hide WellFormed, Next, HostAfter, NodeAfter, StoreAfter, VotesCast, VictoriesWon, MintAfter, Calls, Added, Answer;
    if j > i + 1 {
      StepOfRun(cs, acts, j - 1);
      NextParts(cs[j - 1], acts[j - 1]);
      ClockRunsOn(cs, acts, i + 1, j - 1);
      if r !in cs[j - 1].net {
        AddedSpec(cs[j - 1].hosts[Subject(acts[j - 1])], cs[j - 1].clock, acts[j - 1], r);
      } else {
        StampNamesCall(cs, acts, i, j - 1, r);
      }
    }
  }

  lemma {:induction false} ClockRunsOn(cs: seq<Cluster>, acts: seq<Action>, i: nat, j: nat)
    requires IsRun(cs, acts) && i <= j < |cs|
    ensures cs[i].clock <= cs[j].clock
    decreases j - i
  {
    hide WellFormed, Next, HostAfter, NodeAfter, StoreAfter, VotesCast, VictoriesWon, MintAfter, Calls, Added;
    if i < j {
      ClockRunsOn(cs, acts, i, j - 1);
      StepOfRun(cs, acts, j - 1);
      NextParts(cs[j - 1], acts[j - 1]);
    }
  }

  /** And a request of that step is such a heartbeat. */
  lemma SentInStepIsHeartbeat(cs: seq<Cluster>, acts: seq<Action>, i: nat, j: nat, r: Rpc)
    requires IsRun(cs, acts) && i < j < |cs| && r in cs[j].net && r.stamp == cs[i].clock < cs[i + 1].clock
    requires SendsHeartbeats(cs[i], acts[i]) && r.msg.AppendAsk?
    ensures r.from == acts[i].n && r.to != r.from && IsHeartbeatOf(cs[i].hosts[acts[i].n].node, r.msg)
  {
    hide WellFormed, Next, HostAfter, NodeAfter, StoreAfter, VotesCast, VictoriesWon, MintAfter, Added, Calls;
    StampNamesCall(cs, acts, i, j, r);
    StepOfRun(cs, acts, i);
    NextParts(cs[i], acts[i]);
    var h := cs[i].hosts[acts[i].n];
    assert r !in cs[i].net by { if r in cs[i].net { CallIsOK(cs[i], r); } }
    AddedSpec(h, cs[i].clock, acts[i], r);
    TimerCallsOfLeader(h, acts[i]);
  }

  lemma TimerCallsOfLeader(h: Host, a: Action)
    requires a.Timer? && h.node.running && h.node.role == Leader
    ensures forall p <- Calls(h, a) :: a.heartbeatDue && IsHeartbeatOf(h.node, Calls(h, a)[p])
  {
  }

  lemma HeartbeatTaken(n: Node, q: AppendRequest)
    requires n.running && q.entries == [] && n.currentTerm <= q.term
    ensures OnAppendRequest(n, q).0 == n.(role := Follower, currentTerm := q.term)
  {
  }

  /**
   When the heartbeat of a leader's due timer arrives at a running node whose term is not higher, the node
   follows at exactly the term the leader had, and nothing else about it changes.
   */
  lemma HeartbeatPutsInStep(cs: seq<Cluster>, acts: seq<Action>, i: nat, j: nat, l: Name, f: Name)
    requires IsRun(cs, acts) && i < j < |acts| && SendsHeartbeats(cs[i], acts[i]) && acts[i].n == l
    requires cs[i].clock < cs[i + 1].clock
    requires acts[j].AppendArrives? && acts[j].r.stamp == cs[i].clock && acts[j].r.to == f
    requires f in cs[j].hosts && cs[j].hosts[f].node.running
    requires cs[j].hosts[f].node.currentTerm <= cs[i].hosts[l].node.currentTerm
    ensures acts[j].r.from == l != f && f in cs[j + 1].hosts
    ensures cs[j + 1].hosts[f].node ==
            cs[j].hosts[f].node.(role := Follower, currentTerm := cs[i].hosts[l].node.currentTerm)
  {
    hide WellFormed, Next, HostAfter, OnAppendRequest;
    StepOfRun(cs, acts, j);
    SentInStepIsHeartbeat(cs, acts, i, j, acts[j].r);
    HeartbeatTaken(cs[j].hosts[f].node, acts[j].r.msg.append);
  }

  /** Nobody but a leader sends heartbeats: every request without entries in flight was sent as one. */
  lemma {:induction false} HeartbeatsAreLeaders(cs: seq<Cluster>, acts: seq<Action>, k: nat, r: Rpc) returns (i: nat)
    requires IsRun(cs, acts) && k < |cs| && r in cs[k].net && r.msg.AppendAsk? && r.msg.isHeartbeat
    ensures i < k && cs[i].clock == r.stamp && SendsHeartbeats(cs[i], acts[i]) && acts[i].n == r.from
    ensures IsHeartbeatOf(cs[i].hosts[acts[i].n].node, r.msg)
  {
    hide WellFormed, Next, HostAfter, NodeAfter, StoreAfter, VotesCast, VictoriesWon, MintAfter, Added, Calls;
    if r in cs[k - 1].net {
      i := HeartbeatsAreLeaders(cs, acts, k - 1, r);
    } else {
      i := k - 1;
      StepOfRun(cs, acts, i);
      NextParts(cs[i], acts[i]);
      AddedSpec(cs[i].hosts[Subject(acts[i])], cs[i].clock, acts[i], r);
      OnlyLeadersBeat(cs[i].hosts[Subject(acts[i])], acts[i], r.to);
    }
  }

  lemma OnlyLeadersBeat(h: Host, a: Action, p: Name)
    requires Ready(h, a) && p in Calls(h, a) && Calls(h, a)[p].AppendAsk? && Calls(h, a)[p].isHeartbeat
    ensures a.Timer? && a.heartbeatDue && h.node.running && h.node.role == Leader &&
            IsHeartbeatOf(h.node, Calls(h, a)[p])
  {
    hide Pushes;
  }
}
