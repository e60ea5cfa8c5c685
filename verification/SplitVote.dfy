/**
 Why the cluster size matters for elections: half of the votes is enough for the code, so in every
 cluster of an even size from 4 on, two nodes can become leader in their campaigns for the same term.
 */
module SplitVote {
  import opened Common
  import opened RaftNode
  import opened Cluster
  import opened Elections
  import opened Runs

  /** Two nodes campaign for term 1, each asking one half of the others. */
  lemma TwoCampaigns(members: set<Name>, x: Name, y: Name, forX: set<Name>, forY: set<Name>)
    returns (t: Trace, stampX: nat, stampY: nat)
    requires x in members && y in members && x != y && forX != {} && forY != {}
    requires forX <= members - {x, y} && forY <= members - {x, y} && forX * forY == {}
    ensures Real(t) && t.members == members && t.sole == None
    ensures IsCampaigning(t.now, x, members, {x}) && IsCampaigning(t.now, y, members, {y})
    ensures Asks(t.now, x, members, stampX, forX) && Asks(t.now, y, members, stampY, forY)
  {
    hide Real, IsFresh, IsIdle, IsCampaigning;
    var r := AllIdle(members, None, members);
    stampX := r.now.clock;
    var s := Campaigning(r, x, forX);
    forall m <- forY + {y} ensures IsIdle(s.now, m, members) {
      StatesStay(r.now, s.now, {x}, x, m, members);
    }
    stampY := s.now.clock;
    t := Campaigning(s, y, forY);
    StatesStay(s.now, t.now, {y}, y, x, members);
    CampaignStays(s.now, t.now, {y}, y, x, members, stampX, forX);
  }

  lemma TwoHalves(members: set<Name>) returns (x: Name, y: Name, forX: set<Name>, forY: set<Name>)
    requires |members| % 2 == 0 && |members| >= 4
    ensures x in members && y in members && x != y && forX != {} && forY != {}
    ensures forX <= members - {x, y} && forY <= members - {x, y} && forX * forY == {}
    ensures 2 * |{x} + forX| == |members| && 2 * |{y} + forY| == |members|
  {
    x :| x in members;
    assert |members - {x}| == |members| - 1;
    y :| y in members - {x};
    var others := members - {x} - {y};
    assert |others| == |members| - 2 && others == members - {x, y};
    forX := SubsetOfSize(others, |members| / 2 - 1);
    forY := others - forX;
    assert |forY| == |members| / 2 - 1;
    assert |{x} + forX| == 1 + |forX| && |{y} + forY| == 1 + |forY|;
  }

  /** Two winners of one term, in a run that meets every other hypothesis of election uniqueness. */
  lemma EvenClustersCanSplit(members: set<Name>) returns (t: Trace, v: Victory, w: Victory)
    requires |members| % 2 == 0 && |members| >= 4
    ensures Real(t) && t.members == members && v in t.now.victories && w in t.now.victories
    ensures v.term == w.term && v.name != w.name
  {
    hide Real, IsCampaigning, At, Asks;
    var x, y, forX, forY := TwoHalves(members);
    var r, stampX, stampY := TwoCampaigns(members, x, y, forX, forY);
    var s := Collecting(r, x, {x}, stampX, forX);
    StatesStay(r.now, s.now, forX + {x}, x, y, members);
    CampaignStays(r.now, s.now, forX + {x}, x, y, members, stampY, forY);
    t := Collecting(s, y, {y}, stampY, forY);
    v, w := Victory(x, 1, {x} + forX), Victory(y, 1, {y} + forY);
  }

  // ---------- which clusters elect uniquely ----------

  ghost predicate NoTermWonTwice(c: Cluster) {
    forall v <- c.victories, w <- c.victories :: v.term == w.term ==> v.name == w.name
  }

  /** In no run of these members do two nodes win a campaign for the same term. */
  ghost predicate ElectsUniquely(members: set<Name>) {
    forall cs: seq<Cluster>, acts: seq<Action> ::
      |cs| == |acts| + 1 && IsRun(cs, acts) && TermsDoNotWrap(cs, acts) && VoteRepliesAreCurrent(cs, acts) &&
        cs[0].hosts.Keys == members ==>
        NoTermWonTwice(cs[|acts|])
  }

  /** Elections are unique exactly in clusters of odd size and of size 2. */
  lemma ElectsUniquelyExactly(members: set<Name>)
    requires members != {}
    ensures ElectsUniquely(members) <==> |members| % 2 == 1 || |members| == 2
  {
    hide IsRun, TermsDoNotWrap, VoteRepliesAreCurrent;
    if |members| % 2 == 1 || |members| == 2 {
      forall cs: seq<Cluster>, acts: seq<Action> |
        |cs| == |acts| + 1 && IsRun(cs, acts) && TermsDoNotWrap(cs, acts) && VoteRepliesAreCurrent(cs, acts) &&
          cs[0].hosts.Keys == members
        ensures NoTermWonTwice(cs[|acts|])
      {
        assert |cs[0].hosts| == |cs[0].hosts.Keys|;
        forall v <- cs[|acts|].victories, w <- cs[|acts|].victories | v.term == w.term ensures v.name == w.name {
          OneLeaderPerCampaignTerm(cs, acts, |acts|, v, w);
        }
      }
    } else {
      var t, v, w := EvenClustersCanSplit(members);
      assert IsRun(t.cs, t.acts) && !NoTermWonTwice(t.cs[|t.acts|]);
    }
  }
}
