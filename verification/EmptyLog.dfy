/**
 Where the election restriction ends: a candidate whose log is empty announces last term 2^64 - 1, and
 gets the vote of a node that holds entries. Both halves are about voters that occur in runs.
 */
module EmptyLog {
  import opened Common
  import opened MachineInts
  import opened RaftNode
  import opened ElectionRestriction
  import opened Cluster
  import opened Runs
  import opened StuckLeader

  ghost predicate Occurs(n: Node) {
    exists t: Trace, name: Name :: Real(t) && name in t.now.hosts && t.now.hosts[name].node == n
  }

  /** No voter that a run can reach votes for the candidate while its own log is better. */
  ghost predicate RestrictionHolds(candidate: Node) {
    forall voter: Node :: Occurs(voter) && |voter.logs| < TWO_TO_63 && Grants(voter, VoteRequestOf(candidate)) ==>
      AtLeastAsUpToDate(candidate.logs, voter.logs)
  }

  /** b has the leader's first entry but was never asked for its vote; c voted for the leader and holds nothing. */
  lemma EntryAtB() returns (t: Trace)
    ensures Real(t) && t.members == MEMBERS && t.sole == Some("a")
    ensures At(t.now, "b", Holding(Idle("b", MEMBERS)), 2) && At(t.now, "c", Voter("c", MEMBERS), 0)
  {
    hide Real, Receptive, Voter, Reachable;
    var s := FirstSent(MEMBERS);
    FollowerFacts();
    var a;
    t, a := Arrives(s, "a", 2, "b", Idle("b", MEMBERS));
    StatesStay(s.now, t.now, {"b"}, "a", "c", MEMBERS);
  }

  /** Exactly the candidates with an empty log escape the restriction. */
  lemma RestrictionHoldsExactly(candidate: Node)
    requires |candidate.logs| < TWO_TO_63 && candidate.currentTerm > 0
    ensures RestrictionHolds(candidate) <==> candidate.logs != []
  {
    hide Real;
    if candidate.logs == [] {
      var t := EntryAtB();
      var voter := Holding(Idle("b", MEMBERS));
      assert Occurs(voter);
      VoteRule(candidate, voter);
      assert Grants(voter, VoteRequestOf(candidate)) && !AtLeastAsUpToDate(candidate.logs, voter.logs);
    } else {
      forall voter: Node | Occurs(voter) && |voter.logs| < TWO_TO_63 && Grants(voter, VoteRequestOf(candidate))
        ensures AtLeastAsUpToDate(candidate.logs, voter.logs)
      {
        GrantImpliesUpToDate(candidate, voter);
      }
    }
  }

  // ---------- the exception is real ----------

  /** The second term of c, which campaigns with an empty log. */
  function CandidateC(): Node {
    Dump(Voter("c", MEMBERS).(role := Candidate, currentTerm := 2, votesReceived := 1, votedFor := "c"))
  }

  lemma CallOfC()
    ensures OnTimer(Voter("c", MEMBERS), false, true, false).node == CandidateC() &&
            "b" in OnTimer(Voter("c", MEMBERS), false, true, false).calls
    ensures OnTimer(Voter("c", MEMBERS), false, true, false).calls["b"] == VoteAsk(VoteRequestOf(CandidateC()))
    ensures Voter("c", MEMBERS).running && Voter("c", MEMBERS).role == Follower && Voter("c", MEMBERS).currentTerm == 1
    ensures CandidateC().role == Candidate && CandidateC().currentTerm == 2 && CandidateC().logs == []
  {
    assert "b" in Voter("c", MEMBERS).peers;
  }

  lemma CampaignsEmpty() returns (t: Trace, r: Rpc)
    ensures Real(t) && t.members == MEMBERS && t.sole == Some("a")
    ensures At(t.now, "b", Holding(Idle("b", MEMBERS)), 2) && At(t.now, "c", CandidateC(), 0)
    ensures r in t.now.net && r.from == "c" && r.to == "b" && r.msg == VoteAsk(VoteRequestOf(CandidateC()))
  {
    hide Real, OnTimer, CandidateC, Voter, Next, VotesCast, VictoriesWon, MintAfter;
    var s := EntryAtB();
    var a := Timer("c", false, true, false);
    CallOfC();
    OneMoreStep(s, a);
    t := Then(s, a);
    NextParts(s.now, a);
    r := Rpc(s.now.clock, "c", "b", Calls(s.now.hosts["c"], a)["b"]);
    assert r in Added(s.now.hosts["c"], s.now.clock, a);
  }

  /** In this run b, which holds an entry, votes for c, which holds none. */
  lemma EmptyLogGetsVote() returns (t: Trace, a: Action)
    ensures Real(t) && Enabled(t.now, a) && Real(Then(t, a)) && a.VoteRequestArrives?
    ensures "b" in t.now.hosts && "c" in t.now.hosts
    ensures t.now.hosts["c"].node.logs == [] && t.now.hosts["b"].node.logs == FIRST_LOG
    ensures !AtLeastAsUpToDate(t.now.hosts["c"].node.logs, t.now.hosts["b"].node.logs)
    ensures Subject(a) == "b" && VotesCast(t.now.hosts["b"], a) == {Vote("b", 2, "c")}
  {
    hide Real, CandidateC, Next;
    var r;
    t, r := CampaignsEmpty();
    CallOfC();
    a := VoteRequestArrives(r, false);
    VoteRule(CandidateC(), Holding(Idle("b", MEMBERS)));
    OneMoreStep(t, a);
    NextParts(t.now, a);
  }
}
