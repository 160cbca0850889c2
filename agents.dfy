/** The agents that take turns on the shared blackboard: the generator,
    verifier and synthesizer, whose turns are pure decisions over a snapshot
    of the log, and the reinforcement-learning generator, which keeps a
    Q-table and a map of pending decisions that it updates in place.

    Everything the source draws from `uuid.uuid4()`, `time.time()` and the
    `random` module arrives as a `Draws` value chosen by the caller. */
module Agents {
  import opened Messages
  import opened Learning

  /** A value `random.random()` can return: a real in [0, 1). */
  type UnitInterval = r: real | 0.0 <= r < 1.0

  /** The values one agent turn draws: the fresh message id, the timestamp,
      the confidence, one `random.random()` roll in [0, 1), up to two
      `random.choice` picks (the chosen position is `pick % n` in a list of
      length n) and the `random.randint(1, 100)` suffix. */
  datatype Draws = Draws(
    freshId: string,
    timestamp: real,
    confidence: real,
    roll: UnitInterval,
    pick: nat,
    pick2: nat,
    randInt: nat)

  /** The shared context: the message log that every agent reads and
      appends to. */
  class Blackboard {
    var messages: seq<Message>

    constructor ()
      ensures messages == []
    {
      messages := [];
    }
  }

  /** `write_context`: append one message to the shared log. */
  method WriteContext(board: Blackboard, m: Message)
    modifies board
    ensures board.messages == old(board.messages) + [m]
  {
    board.messages := board.messages + [m];
  }

  /** What a turn writes back: the message, or nothing for `None`. */
  function Emitted(o: Option<Message>): seq<Message>
  {
    if o.Some? then [o.value] else []
  }

  /** The generator's proposal: "Hypothesis_<n>". */
  function Generate(agentId: string, d: Draws): (m: Message)
    ensures m.kind == Proposal && m.id == d.freshId && m.agentId == agentId && m.refId.None?
    ensures 'V' !in m.content
  {
    Message(d.freshId, agentId, Proposal, "Hypothesis_" + Digits(d.randInt),
            NormalPriority, d.timestamp, d.confidence, None)
  }

  /** The verifier's verdict label: "Verified" when the roll exceeds 0.3,
      which happens with probability 0.7. */
  function Verdict(roll: UnitInterval): (v: string)
    ensures v == "Verified" || v == "Rejected"
    ensures v == "Verified" <==> roll > 0.3
    ensures 'V' in v <==> roll > 0.3
  {
    if roll > 0.3 then "Verified" else "Rejected"
  }

  /** The verifier's turn: pick one proposal of the snapshot and verify or
      reject it; nothing when there is no proposal. */
  function Verify(agentId: string, messages: seq<Message>, d: Draws): (r: Option<Message>)
    ensures r.None? <==> Count(messages, Proposal) == 0
    ensures r.Some? ==>
              && r.value.kind == Verification && r.value.id == d.freshId && r.value.agentId == agentId
              && r.value.refId.Some?
              && exists p :: p in messages && p.kind == Proposal && p.id == r.value.refId.value
                             && r.value.content == Verdict(d.roll) + ": " + p.content
  {
    var proposals := OfKind(messages, Proposal);
    if |proposals| == 0 then None
    else
      var chosen := proposals[d.pick % |proposals|];
      Some(Message(d.freshId, agentId, Verification, Verdict(d.roll) + ": " + chosen.content,
                   HighPriority, d.timestamp, d.confidence, Some(chosen.id)))
  }

  /** The synthesizer's turn: combine two proposals of the snapshot, drawn
      with replacement; nothing when there are fewer than two. */
  function Synthesize(agentId: string, messages: seq<Message>, d: Draws): (r: Option<Message>)
    ensures r.None? <==> Count(messages, Proposal) < 2
    ensures r.Some? ==>
              && r.value.kind == Synthesis && r.value.id == d.freshId && r.value.agentId == agentId
              && r.value.refId.None?
              && exists p1, p2 :: p1 in messages && p2 in messages
                                  && p1.kind == Proposal && p2.kind == Proposal
                                  && r.value.content == "MetaHypothesis: (" + p1.content + ") + (" + p2.content + ")"
  {
    var proposals := OfKind(messages, Proposal);
    if |proposals| >= 2 then
      var first := proposals[d.pick % |proposals|];
      var second := proposals[d.pick2 % |proposals|];
      Some(Message(d.freshId, agentId, Synthesis,
                   "MetaHypothesis: (" + first.content + ") + (" + second.content + ")",
                   NormalPriority, d.timestamp, d.confidence, None))
    else None
  }

  /** The three agents without learning state. */
  datatype Agent =
    | GeneratorAgent(agentId: string)
    | VerifierAgent(agentId: string)
    | SynthesizerAgent(agentId: string)
  {
    /** `process`: the message the agent decides on, if any. */
    function Process(messages: seq<Message>, d: Draws): (r: Option<Message>)
      ensures GeneratorAgent? ==> r.Some?
      ensures r.Some? ==> r.value.id == d.freshId && r.value.agentId == agentId
      ensures r.Some? ==> (r.value.kind == Proposal <==> GeneratorAgent?)
                          && (r.value.kind == Verification <==> VerifierAgent?)
      ensures r.Some? && r.value.kind == Proposal ==> 'V' !in r.value.content
      ensures r.Some? && r.value.kind == Verification ==>
                r.value.refId.Some?
                && exists p :: p in messages && p.kind == Proposal && p.id == r.value.refId.value
    {
      match this
      case GeneratorAgent(id) => Some(Generate(id, d))
      case VerifierAgent(id) => Verify(id, messages, d)
      case SynthesizerAgent(id) => Synthesize(id, messages, d)
    }

    /** `act`: read the log, decide, and append the decision if there is
        one. Earlier messages are never changed. */
    method Act(board: Blackboard, d: Draws)
      modifies board
      ensures board.messages == old(board.messages) + Emitted(Process(old(board.messages), d))
    {
      var localMessages := board.messages;
      var message := Process(localMessages, d);
      if message.Some? {
        WriteContext(board, message.value);
      }
    }
  }

  /** The ids of the messages in the log. */
  function Ids(log: seq<Message>): set<string>
  {
    set m | m in log :: m.id
  }

  /** The log invariants every turn keeps: ids are unique, every
      verification refers to a proposal that stands earlier in the log, and
      no proposal's content contains the letter 'V' (so none contains
      "Verified"). */
  ghost predicate WellFormedLog(log: seq<Message>)
  {
    && (forall i, j :: 0 <= i < j < |log| ==> log[i].id != log[j].id)
    && (forall i :: 0 <= i < |log| && log[i].kind == Verification ==>
          && log[i].refId.Some?
          && exists j :: 0 <= j < i && log[j].kind == Proposal && log[j].id == log[i].refId.value)
    && (forall i :: 0 <= i < |log| && log[i].kind == Proposal ==> 'V' !in log[i].content)
  }

  /** Appending a message with a fresh id keeps the log well formed, as long
      as a verification refers to a proposal already in the log and a
      proposal carries no 'V'. */
  lemma AppendKeepsWellFormed(log: seq<Message>, m: Message)
    requires WellFormedLog(log)
    requires m.id !in Ids(log)
    requires m.kind == Verification ==>
               m.refId.Some? && exists p :: p in log && p.kind == Proposal && p.id == m.refId.value
    requires m.kind == Proposal ==> 'V' !in m.content
    ensures WellFormedLog(log + [m])
  {
    var log' := log + [m];
    forall i, j | 0 <= i < j < |log'| ensures log'[i].id != log'[j].id {
      if j == |log| {
        assert log'[i] in log;
      }
    }
    if m.kind == Verification {
      var p :| p in log && p.kind == Proposal && p.id == m.refId.value;
      var j :| 0 <= j < |log| && log[j] == p;
      assert log'[j] == p;
    }
    forall i | 0 <= i < |log'| && log'[i].kind == Verification
      ensures exists j :: 0 <= j < i && log'[j].kind == Proposal && log'[j].id == log'[i].refId.value
    {
      if i < |log| {
        var j :| 0 <= j < i && log[j].kind == Proposal && log[j].id == log[i].refId.value;
        assert log'[j] == log[j];
      }
    }
  }

  /** Every turn of the three stateless agents keeps the log well formed
      when the id it draws is fresh. */
  lemma ProcessKeepsWellFormed(agent: Agent, log: seq<Message>, d: Draws)
    requires WellFormedLog(log)
    requires d.freshId !in Ids(log)
    ensures WellFormedLog(log + Emitted(agent.Process(log, d)))
  {
    var r := agent.Process(log, d);
    if r.Some? {
      AppendKeepsWellFormed(log, r.value);
    } else {
      assert log + Emitted(r) == log;
    }
  }

  /** In a well-formed log every referenced id is the id of a message. */
  lemma RefsAreIds(log: seq<Message>)
    requires WellFormedLog(log)
    ensures Refs(log) <= Ids(log)
  {
    forall r | r in Refs(log) ensures r in Ids(log) {
      var m :| m in log && m.kind == Verification && m.refId.Some? && m.refId.value == r;
      var i :| 0 <= i < |log| && log[i] == m;
      var j :| 0 <= j < i && log[j].kind == Proposal && log[j].id == r;
      assert log[j] in log;
    }
  }

  /** The learner's reward agrees with the verifier's verdict: the substring
      test for "Verified" finds it exactly when the verdict is "Verified",
      because no proposal in a well-formed log contains a 'V'. */
  lemma VerdictReward(agentId: string, log: seq<Message>, d: Draws)
    requires WellFormedLog(log)
    requires Verify(agentId, log, d).Some?
    ensures Reward(Verify(agentId, log, d).value.content) == (if d.roll > 0.3 then 1.0 else -1.0)
  {
    var v := Verify(agentId, log, d).value;
    var p :| p in log && p.kind == Proposal && p.id == v.refId.value
             && v.content == Verdict(d.roll) + ": " + p.content;
    if d.roll > 0.3 {
      assert "Verified" <= v.content;
    } else {
      var i :| 0 <= i < |log| && log[i] == p;
      assert 'V' !in p.content;
      assert 'V' !in v.content by {
        assert v.content == "Rejected: " + p.content;
      }
      if Contains(v.content, "Verified") {
        ContainsFirstChar(v.content, "Verified");
        assert false;
      }
    }
  }

  /** `_discretize_state`: bucket the number of proposals into 0 (fewer
      than 3), 1 (3 to 5) or 2 (more than 5). */
  function DiscretizeState(messages: seq<Message>): (s: nat)
    ensures s <= 2
    ensures s == 0 <==> Count(messages, Proposal) < 3
    ensures s == 2 <==> Count(messages, Proposal) > 5
  {
    var numProposals := Count(messages, Proposal);
    if numProposals < 3 then 0
    else if numProposals <= 5 then 1
    else 2
  }

  /** The bucketing is monotone in the number of proposals. */
  lemma DiscretizeMonotone(a: seq<Message>, b: seq<Message>)
    requires Count(a, Proposal) <= Count(b, Proposal)
    ensures DiscretizeState(a) <= DiscretizeState(b)
  {
  }

  /** As the log grows by appending, the state never goes down. */
  lemma DiscretizeGrows(log: seq<Message>, extra: seq<Message>)
    ensures DiscretizeState(log) <= DiscretizeState(log + extra)
  {
    CountMonotone(log, log + extra, Proposal);
    DiscretizeMonotone(log, log + extra);
  }

  /** The RL generator's proposal: "Hypothesis_<action>_<n>". */
  function ProposeAction(agentId: string, a: Action, d: Draws): (m: Message)
    ensures m.kind == Proposal && m.id == d.freshId && m.agentId == agentId && m.refId.None?
    ensures Contains(m.content, Label(a))
    ensures 'V' !in m.content
  {
    var name := Label(a);
    var suffix := "_" + Digits(d.randInt);
    var content := "Hypothesis_" + name + suffix;
    ContainsInfix("Hypothesis_", name, suffix);
    assert 'V' !in name;
    Message(d.freshId, agentId, Proposal, content, NormalPriority, d.timestamp, d.confidence, None)
  }

  /** The reinforcement-learning generator: epsilon-greedy choice of the
      proposal type, and one-step Q-learning from verifications of its own
      proposals. */
  class RLGenerator {
    const agentId: string
    const epsilon: real
    const alpha: real
    const gamma: real
    var qTable: QTable
    var lastActions: Pending

    constructor (agentId: string, epsilon: real := 0.2, alpha: real := 0.1, gamma: real := 0.9)
      ensures this.agentId == agentId && this.epsilon == epsilon
      ensures this.alpha == alpha && this.gamma == gamma
      ensures qTable == map[] && lastActions == map[]
    {
      this.agentId := agentId;
      this.epsilon := epsilon;
      this.alpha := alpha;
      this.gamma := gamma;
      qTable := map[];
      lastActions := map[];
    }

    /** `_choose_action`: explore with a uniformly chosen action when the
        roll is below epsilon; otherwise take an action of maximal Q-value
        for the state, the first one in `Actions` on ties. */
    function ChooseAction(state: nat, d: Draws): (a: Action)
      reads this
      ensures d.roll >= epsilon ==> forall b :: QValue(qTable, state, b) <= QValue(qTable, state, a)
      ensures d.roll >= epsilon ==>
                forall j :: 0 <= j < Index(a) ==> QValue(qTable, state, Actions[j]) < QValue(qTable, state, a)
    {
      if d.roll < epsilon then Actions[d.pick % |Actions|]
      else GreedyAction(qTable, state)
    }

    /** `process`: propose with the chosen action and remember the
        (state, action) pair under the new proposal's id. */
    method Process(messages: seq<Message>, d: Draws) returns (m: Message)
      modifies this`lastActions
      ensures var s := DiscretizeState(messages);
              var a := old(ChooseAction(s, d));
              && m == ProposeAction(agentId, a, d)
              && lastActions == old(lastActions)[m.id := (s, a)]
    {
      var state := DiscretizeState(messages);
      var action := ChooseAction(state, d);
      m := ProposeAction(agentId, action, d);
      lastActions := lastActions[m.id := (state, action)];
    }

    /** `update_q_values`: scan the whole log; for each verification of a
        pending proposal apply the Q-learning update and drop the id. */
    method UpdateQValues(board: Blackboard)
      modifies this`qTable, this`lastActions
      ensures Learner(qTable, lastActions) == Learn(old(Learner(qTable, lastActions)), board.messages, alpha, gamma)
    {
      var messages := board.messages;
      ghost var start := Learner(qTable, lastActions);
      var i := 0;
      while i < |messages|
        invariant 0 <= i <= |messages|
        invariant Learner(qTable, lastActions) == Learn(start, messages[..i], alpha, gamma)
      {
        var msg := messages[i];
        assert messages[..i + 1] == messages[..i] + [msg];
        LearnSnoc(start, messages[..i], msg, alpha, gamma);
        ghost var before := Learner(qTable, lastActions);
        if msg.kind == Verification && msg.refId.Some? {
          var refId := msg.refId.value;
          if refId in lastActions {
            var state, action := lastActions[refId].0, lastActions[refId].1;
            var reward := if Contains(msg.content, "Verified") then 1.0 else -1.0;
            var currentQ := QValue(qTable, state, action);
            var maxFuture := MaxQ(qTable, state, Actions);
            assert reward == Reward(msg.content);
            var newQ := QUpdate(currentQ, reward, maxFuture, alpha, gamma);
            qTable := qTable[(state, action) := newQ];
            lastActions := lastActions - {refId};
            assert Learner(qTable, lastActions) == Step(before, msg, alpha, gamma);
          }
        }
        i := i + 1;
      }
      assert messages[..i] == messages;
    }

    /** `act`: one turn on the shared blackboard; the RL generator always
        appends exactly one proposal. */
    method Act(board: Blackboard, d: Draws)
      modifies this`lastActions, board
      ensures var s := DiscretizeState(old(board.messages));
              var a := old(ChooseAction(s, d));
              && board.messages == old(board.messages) + [ProposeAction(agentId, a, d)]
              && lastActions == old(lastActions)[d.freshId := (s, a)]
    {
      var localMessages := board.messages;
      var message := Process(localMessages, d);
      WriteContext(board, message);
    }
  }
}
