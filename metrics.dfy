/** Per-round metrics: after every round the collector appends the number of
    proposals, verifications and syntheses in the whole log (a cumulative
    count, since the log is never cleared) to three parallel histories. */
module Metrics {
  import opened Messages
  import opened Agents

  class MetricsCollector {
    var hypothesesHistory: seq<nat>
    var verificationsHistory: seq<nat>
    var synthesesHistory: seq<nat>
    /** The log as it stood at each update, oldest first. */
    ghost var seen: seq<seq<Message>>

    /** The three histories are parallel, one entry per update, and each
        entry is the count of its kind in the log seen at that update. */
    ghost predicate Valid()
      reads this
    {
      && |hypothesesHistory| == |seen|
      && |verificationsHistory| == |seen|
      && |synthesesHistory| == |seen|
      && (forall i :: 0 <= i < |seen| ==>
            && hypothesesHistory[i] == Count(seen[i], Proposal)
            && verificationsHistory[i] == Count(seen[i], Verification)
            && synthesesHistory[i] == Count(seen[i], Synthesis))
    }

    constructor ()
      ensures Valid()
      ensures hypothesesHistory == [] && verificationsHistory == [] && synthesesHistory == []
      ensures seen == []
    {
      hypothesesHistory := [];
      verificationsHistory := [];
      synthesesHistory := [];
      seen := [];
    }

    /** `update`: append the current per-kind counts of the whole log to
        the three histories; earlier entries are untouched. */
    method Update(board: Blackboard)
      requires Valid()
      modifies this
      ensures Valid()
      ensures hypothesesHistory == old(hypothesesHistory) + [Count(board.messages, Proposal)]
      ensures verificationsHistory == old(verificationsHistory) + [Count(board.messages, Verification)]
      ensures synthesesHistory == old(synthesesHistory) + [Count(board.messages, Synthesis)]
      ensures seen == old(seen) + [board.messages]
    {
      var messages := board.messages;
      var numProposals := Count(messages, Proposal);
      var numVerifications := Count(messages, Verification);
      var numSyntheses := Count(messages, Synthesis);
      hypothesesHistory := hypothesesHistory + [numProposals];
      verificationsHistory := verificationsHistory + [numVerifications];
      synthesesHistory := synthesesHistory + [numSyntheses];
      seen := seen + [messages];
    }

    /** The three entries of one update add up to the length of the log
        seen then: the type tags are disjoint. */
    lemma EntriesCoverLog(i: nat)
      requires Valid() && i < |seen|
      ensures hypothesesHistory[i] + verificationsHistory[i] + synthesesHistory[i] == |seen[i]|
    {
      CountPartition(seen[i]);
    }

    /** When the log only grew by appending between two updates, no count
        in the later entry is smaller than in the earlier one. */
    lemma EntriesMonotone(i: nat, j: nat)
      requires Valid() && i <= j < |seen|
      requires seen[i] <= seen[j]
      ensures hypothesesHistory[i] <= hypothesesHistory[j]
      ensures verificationsHistory[i] <= verificationsHistory[j]
      ensures synthesesHistory[i] <= synthesesHistory[j]
    {
      CountMonotone(seen[i], seen[j], Proposal);
      CountMonotone(seen[i], seen[j], Verification);
      CountMonotone(seen[i], seen[j], Synthesis);
    }
  }
}
