/** One iteration of the main loop, run sequentially: the learning agent and
    then every other agent take one turn on the blackboard, the learning
    agent scans the log for feedback, and the metrics collector records the
    counts. The concurrent dispatch of the turns is not modelled; the turns
    land in the order of the agent list, which is one of the orders the
    concurrent run can produce. */
module Coordinator {
  import opened Messages
  import opened Learning
  import opened Agents
  import opened Metrics

  /** Every pending decision names a proposal of this agent in the log. */
  ghost predicate PendingAuthored(pending: Pending, log: seq<Message>, agentId: string)
  {
    forall id :: id in pending ==>
      exists m :: m in log && m.id == id && m.kind == Proposal && m.agentId == agentId
  }

  lemma IdsAppend(log: seq<Message>, extra: seq<Message>)
    ensures Ids(log + extra) == Ids(log) + Ids(extra)
  {
    assert forall m :: m in log + extra <==> m in log || m in extra;
  }

  lemma PendingAuthoredGrows(pending: Pending, log: seq<Message>, extra: seq<Message>, agentId: string)
    requires PendingAuthored(pending, log, agentId)
    ensures PendingAuthored(pending, log + extra, agentId)
  {
    forall id | id in pending
      ensures exists m :: m in log + extra && m.id == id && m.kind == Proposal && m.agentId == agentId
    {
      var m :| m in log && m.id == id && m.kind == Proposal && m.agentId == agentId;
      assert m in log + extra;
    }
  }

  /** The ids the turns of one iteration draw are distinct and new to the
      log (the source relies on `uuid4` for this). */
  ghost predicate FreshDraws(rlDraws: Draws, draws: seq<Draws>, log: seq<Message>)
  {
    && rlDraws.freshId !in Ids(log)
    && (forall i :: 0 <= i < |draws| ==> draws[i].freshId !in Ids(log) && draws[i].freshId != rlDraws.freshId)
    && (forall i, j :: 0 <= i < j < |draws| ==> draws[i].freshId != draws[j].freshId)
  }

  /** What the turns of `agents`, in list order, append to `log`: each
      agent decides on the log as the earlier turns left it. */
  function Turns(log: seq<Message>, agents: seq<Agent>, draws: seq<Draws>): (r: seq<Message>)
    requires |draws| == |agents|
    ensures |r| <= |agents|
    decreases |agents|
  {
    if agents == [] then []
    else
      var n := |agents| - 1;
      var earlier := Turns(log, agents[..n], draws[..n]);
      earlier + Emitted(agents[n].Process(log + earlier, draws[n]))
  }

  /** One more turn at the end of the list appends that agent's decision
      on the log as the earlier turns left it. */
  lemma TurnsSnoc(log: seq<Message>, agents: seq<Agent>, draws: seq<Draws>, i: nat)
    requires |draws| == |agents| && i < |agents|
    ensures var earlier := Turns(log, agents[..i], draws[..i]);
            Turns(log, agents[..i + 1], draws[..i + 1])
              == earlier + Emitted(agents[i].Process(log + earlier, draws[i]))
  {
    assert agents[..i + 1][..i] == agents[..i] && draws[..i + 1][..i] == draws[..i];
  }

  /** Every message the turns append carries the fresh id of one of the
      turns' draws. */
  lemma {:induction false} TurnsIds(log: seq<Message>, agents: seq<Agent>, draws: seq<Draws>)
    requires |draws| == |agents|
    ensures forall m :: m in Turns(log, agents, draws) ==>
              exists k :: 0 <= k < |draws| && m.id == draws[k].freshId
    decreases |agents|
  {
    if agents != [] {
      var n := |agents| - 1;
      TurnsIds(log, agents[..n], draws[..n]);
      var earlier := Turns(log, agents[..n], draws[..n]);
      var emitted := Emitted(agents[n].Process(log + earlier, draws[n]));
      forall m: Message | m in earlier + emitted
        ensures exists k :: 0 <= k < |draws| && m.id == draws[k].freshId
      {
        if m in earlier {
          var k :| 0 <= k < n && m.id == draws[..n][k].freshId;
          assert draws[..n][k] == draws[k];
        } else {
          assert m.id == draws[n].freshId;
        }
      }
    }
  }

  /** The id drawn for turn n is still new after the turns before it. */
  lemma FreshAfterTurns(log: seq<Message>, agents: seq<Agent>, draws: seq<Draws>, n: nat)
    requires |draws| == |agents| && n < |agents|
    requires forall i :: 0 <= i < |draws| ==> draws[i].freshId !in Ids(log)
    requires forall i, j :: 0 <= i < j < |draws| ==> draws[i].freshId != draws[j].freshId
    ensures draws[n].freshId !in Ids(log + Turns(log, agents[..n], draws[..n]))
  {
    var earlier := Turns(log, agents[..n], draws[..n]);
    TurnsIds(log, agents[..n], draws[..n]);
    IdsAppend(log, earlier);
  }

  /** The last turn keeps the log well formed when the earlier turns did
      and its id is still new. */
  lemma LastTurnKeepsWellFormed(log: seq<Message>, agents: seq<Agent>, draws: seq<Draws>)
    requires |draws| == |agents| && |agents| > 0
    requires var n := |agents| - 1;
             var earlier := Turns(log, agents[..n], draws[..n]);
             WellFormedLog(log + earlier) && draws[n].freshId !in Ids(log + earlier)
    ensures WellFormedLog(log + Turns(log, agents, draws))
  {
    var n := |agents| - 1;
    var earlier := Turns(log, agents[..n], draws[..n]);
    ProcessKeepsWellFormed(agents[n], log + earlier, draws[n]);
    var emitted := Emitted(agents[n].Process(log + earlier, draws[n]));
    assert log + Turns(log, agents, draws) == (log + earlier) + emitted;
  }

  /** The turns keep the log well formed when every draw's id is new to
      the log and the draws' ids are distinct. */
  lemma {:induction false} TurnsKeepWellFormed(log: seq<Message>, agents: seq<Agent>, draws: seq<Draws>)
    requires |draws| == |agents|
    requires WellFormedLog(log)
    requires forall i :: 0 <= i < |draws| ==> draws[i].freshId !in Ids(log)
    requires forall i, j :: 0 <= i < j < |draws| ==> draws[i].freshId != draws[j].freshId
    ensures WellFormedLog(log + Turns(log, agents, draws))
    decreases |agents|
  {
    if agents == [] {
      assert log + Turns(log, agents, draws) == log;
    } else {
      var n := |agents| - 1;
      assert forall i :: 0 <= i < n ==> draws[..n][i] == draws[i];
      TurnsKeepWellFormed(log, agents[..n], draws[..n]);
      FreshAfterTurns(log, agents, draws, n);
      LastTurnKeepsWellFormed(log, agents, draws);
    }
  }

  /** The turns of the agents without learning state, in list order: the
      log gains exactly what `Turns` says, and stays well formed. */
  method OtherTurns(board: Blackboard, agents: seq<Agent>, draws: seq<Draws>)
    requires |draws| == |agents|
    requires WellFormedLog(board.messages)
    requires forall i :: 0 <= i < |draws| ==> draws[i].freshId !in Ids(board.messages)
    requires forall i, j :: 0 <= i < j < |draws| ==> draws[i].freshId != draws[j].freshId
    modifies board
    ensures board.messages == old(board.messages) + Turns(old(board.messages), agents, draws)
    ensures WellFormedLog(board.messages)
  {
    ghost var start := board.messages;
    var i := 0;
    while i < |agents|
      invariant 0 <= i <= |agents|
      invariant board.messages == start + Turns(start, agents[..i], draws[..i])
    {
      TurnsSnoc(start, agents, draws, i);
      agents[i].Act(board, draws[i]);
      i := i + 1;
    }
    assert agents[..i] == agents && draws[..i] == draws;
    TurnsKeepWellFormed(start, agents, draws);
  }

  /** One iteration: turns, then credit assignment, then metrics. The log
      stays well formed and only grows; afterwards no pending decision is
      referenced by feedback in the log, every pending decision names one of
      the learner's proposals, and the scan credited exactly the feedback
      that arrived during this iteration. */
  method RunIteration(board: Blackboard, rl: RLGenerator, agents: seq<Agent>,
                      rlDraws: Draws, draws: seq<Draws>, metrics: MetricsCollector)
    requires |draws| == |agents|
    requires metrics.Valid()
    requires WellFormedLog(board.messages)
    requires FreshDraws(rlDraws, draws, board.messages)
    requires rl.lastActions.Keys !! Refs(board.messages)
    requires PendingAuthored(rl.lastActions, board.messages, rl.agentId)
    modifies board, rl, metrics
    ensures WellFormedLog(board.messages)
    ensures var s := DiscretizeState(old(board.messages));
            var proposal := ProposeAction(rl.agentId, old(rl.ChooseAction(s, rlDraws)), rlDraws);
            board.messages == old(board.messages) + [proposal]
                              + Turns(old(board.messages) + [proposal], agents, draws)
    ensures rl.lastActions.Keys !! Refs(board.messages)
    ensures PendingAuthored(rl.lastActions, board.messages, rl.agentId)
    ensures var s := DiscretizeState(old(board.messages));
            var a := old(rl.ChooseAction(s, rlDraws));
            var decided := Learner(old(rl.qTable), old(rl.lastActions)[rlDraws.freshId := (s, a)]);
            Learner(rl.qTable, rl.lastActions)
              == Learn(decided, board.messages[|old(board.messages)|..], rl.alpha, rl.gamma)
    ensures metrics.Valid() && metrics.seen == old(metrics.seen) + [board.messages]
  {
    var before := board.messages;
    rl.Act(board, rlDraws);
    var proposal := board.messages[|before|];
    assert board.messages == before + [proposal];
    AppendKeepsWellFormed(before, proposal);
    IdsAppend(before, [proposal]);
    PendingAuthoredGrows(old(rl.lastActions), before, [proposal], rl.agentId);
    assert PendingAuthored(rl.lastActions, board.messages, rl.agentId);
    ghost var decided := Learner(rl.qTable, rl.lastActions);

    assert forall i :: 0 <= i < |draws| ==> draws[i].freshId !in Ids(board.messages);
    OtherTurns(board, agents, draws);
    assert rl.qTable == decided.q && rl.lastActions == decided.pending;
    PendingAuthoredGrows(rl.lastActions, before + [proposal], board.messages[|before| + 1..], rl.agentId);
    assert before + [proposal] + board.messages[|before| + 1..] == board.messages;

    var rest := board.messages[|before|..];
    assert board.messages == before + rest;
    assert decided.pending.Keys !! Refs(before) by {
      RefsAreIds(before);
    }
    rl.UpdateQValues(board);
    RescanGrownLog(decided, before, rest, rl.alpha, rl.gamma);
    LearnPending(decided, board.messages, rl.alpha, rl.gamma);
    metrics.Update(board);
  }
}
