/** The election restriction (section 5.4.1 of the Raft paper) as the vote handler enforces it. */
module ElectionRestriction {
  import opened MachineInts
  import opened RaftLog
  import opened RaftNode

  /** The paper's order: the later last term, or the same last term and a log at least as long. */
  predicate AtLeastAsUpToDate(a: seq<LogEntry>, b: seq<LogEntry>) {
    LastLogTerm(a) > LastLogTerm(b) || (LastLogTerm(a) == LastLogTerm(b) && |a| >= |b|)
  }

  predicate Grants(voter: Node, q: VoteRequest) {
    var answer := OnVoteRequest(voter, q).1;
    answer.Some? && answer.value.voteGranted
  }

  lemma OrderIsTotalAndTransitive(a: seq<LogEntry>, b: seq<LogEntry>, c: seq<LogEntry>)
    ensures AtLeastAsUpToDate(a, b) || AtLeastAsUpToDate(b, a)
    ensures AtLeastAsUpToDate(a, b) && AtLeastAsUpToDate(b, c) ==> AtLeastAsUpToDate(a, c)
  {
  }

  /**
   What any request needs for a vote, in plain integers: the last index is compared as a uint64_t, so -1 passes
   for the largest.
   */
  lemma GrantExactly(voter: Node, q: VoteRequest)
    requires |voter.logs| < TWO_TO_63
    ensures Grants(voter, q) <==>
            && voter.running && q.term > voter.currentTerm && q.lastLogIndex >= -1
            && (|| voter.logs == [] || q.lastLogTerm > LastLogTerm(voter.logs)
                || (q.lastLogTerm == LastLogTerm(voter.logs)
                    && (q.lastLogIndex == -1 || q.lastLogIndex >= |voter.logs| - 1)))
  {
    if voter.logs != [] {
      assert ToU64(|voter.logs| + LAST_INCLUDE_INDEX) == |voter.logs| - 1;
    }
  }

  /** The exact voting rule, through the mixed signed and unsigned comparisons, for logs a vector can hold. */
  lemma VoteRule(candidate: Node, voter: Node)
    requires |candidate.logs| < TWO_TO_63 && |voter.logs| < TWO_TO_63
    ensures Grants(voter, VoteRequestOf(candidate)) <==>
            && voter.running
            && candidate.currentTerm > voter.currentTerm
            && (candidate.logs == [] || AtLeastAsUpToDate(candidate.logs, voter.logs))
  {
    if voter.logs != [] {
      assert ToU64(|voter.logs| + LAST_INCLUDE_INDEX) == |voter.logs| - 1;
    }
  }

  /** A running candidate with a non-empty log never wins the vote of a node with a better log. */
  lemma GrantImpliesUpToDate(candidate: Node, voter: Node)
    requires |candidate.logs| < TWO_TO_63 && |voter.logs| < TWO_TO_63
    requires candidate.logs != [] && Grants(voter, VoteRequestOf(candidate))
    ensures AtLeastAsUpToDate(candidate.logs, voter.logs)
  {
    VoteRule(candidate, voter);
  }
}
