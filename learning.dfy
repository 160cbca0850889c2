/** The Q-learning side of the reinforcement-learning generator: the action
    set, the Q-table and pending-decision map, greedy selection, and the
    credit-assignment scan as a fold over the message log. The class that
    holds this state and updates it in place is `Agents.RLGenerator`; the
    functions here are its specification. */
module Learning {
  import opened Messages

  /** The proposal types the generator can choose between. */
  datatype Action = Low | Medium | High

  /** The fixed action list, in the order the source declares it. */
  const Actions: seq<Action> := [Low, Medium, High]

  function Label(a: Action): string
  {
    match a
    case Low => "low"
    case Medium => "medium"
    case High => "high"
  }

  /** The position of an action in `Actions`. */
  function Index(a: Action): (i: nat)
    ensures i < |Actions| && Actions[i] == a
  {
    match a
    case Low => 0
    case Medium => 1
    case High => 2
  }

  type StateAction = (nat, Action)
  type QTable = map<StateAction, real>
  /** Proposal id -> the (state, action) pair that produced it. */
  type Pending = map<string, StateAction>

  /** `q_table.get((state, action), 0)`. */
  function QValue(q: QTable, s: nat, a: Action): (v: real)
    ensures (s, a) !in q ==> v == 0.0
    ensures (s, a) in q ==> v == q[(s, a)]
  {
    if (s, a) in q then q[(s, a)] else 0.0
  }

  /** The index `max(q_values, key=q_values.get)` picks: Python's `max` keeps
      the running best and replaces it only on a strictly larger key, so the
      first maximal action wins. */
  function Greedy(q: QTable, s: nat, acts: seq<Action>): (k: nat)
    requires |acts| > 0
    ensures k < |acts|
    ensures forall j :: 0 <= j < |acts| ==> QValue(q, s, acts[j]) <= QValue(q, s, acts[k])
    ensures forall j :: 0 <= j < k ==> QValue(q, s, acts[j]) < QValue(q, s, acts[k])
    decreases |acts|
  {
    if |acts| == 1 then 0
    else
      var k := Greedy(q, s, acts[..|acts| - 1]);
      if QValue(q, s, acts[|acts| - 1]) > QValue(q, s, acts[k]) then |acts| - 1 else k
  }

  /** The greedy policy over the fixed action list: an action of maximal
      Q-value for the state, and no action before it in `Actions` ties. */
  function GreedyAction(q: QTable, s: nat): (a: Action)
    ensures forall b :: QValue(q, s, b) <= QValue(q, s, a)
    ensures forall j :: 0 <= j < Index(a) ==> QValue(q, s, Actions[j]) < QValue(q, s, a)
  {
    var k := Greedy(q, s, Actions);
    assert Index(Actions[k]) == k;
    GreedyBeatsEveryAction(q, s);
    Actions[k]
  }

  lemma GreedyBeatsEveryAction(q: QTable, s: nat)
    ensures forall b :: QValue(q, s, b) <= QValue(q, s, Actions[Greedy(q, s, Actions)])
  {
    var k := Greedy(q, s, Actions);
    forall b ensures QValue(q, s, b) <= QValue(q, s, Actions[k]) {
      var j := Index(b);
      assert Actions[j] == b;
      assert QValue(q, s, Actions[j]) <= QValue(q, s, Actions[k]);
    }
  }

  /** `max([q_table.get((state, a), 0) for a in actions])`. */
  function MaxQ(q: QTable, s: nat, acts: seq<Action>): (m: real)
    requires |acts| > 0
    ensures forall j :: 0 <= j < |acts| ==> QValue(q, s, acts[j]) <= m
    ensures exists j :: 0 <= j < |acts| && m == QValue(q, s, acts[j])
    decreases |acts|
  {
    if |acts| == 1 then QValue(q, s, acts[0])
    else
      var m := MaxQ(q, s, acts[..|acts| - 1]);
      var v := QValue(q, s, acts[|acts| - 1]);
      if v > m then v else m
  }

  /** The greedy choice attains the maximal Q-value of the state. */
  lemma GreedyAttainsMax(q: QTable, s: nat, acts: seq<Action>)
    requires |acts| > 0
    ensures QValue(q, s, acts[Greedy(q, s, acts)]) == MaxQ(q, s, acts)
  {
    var k := Greedy(q, s, acts);
    var j :| 0 <= j < |acts| && MaxQ(q, s, acts) == QValue(q, s, acts[j]);
    assert QValue(q, s, acts[j]) <= QValue(q, s, acts[k]);
  }

  /** +1 when the verification's content contains "Verified", -1 otherwise. */
  function Reward(content: string): (r: real)
    ensures r == 1.0 || r == -1.0
    ensures r == 1.0 <==> Contains(content, "Verified")
  {
    if Contains(content, "Verified") then 1.0 else -1.0
  }

  /** The learner's state: the Q-table and the pending decisions. */
  datatype Learner = Learner(q: QTable, pending: Pending)

  /** The one-step Q-learning rule of the source:
      `current_q + alpha * (reward + gamma * max_future - current_q)`. */
  function QUpdate(current: real, reward: real, maxFuture: real, alpha: real, gamma: real): (r: real)
    ensures alpha == 0.0 ==> r == current
    ensures alpha == 1.0 ==> r == reward + gamma * maxFuture
  {
    current + alpha * (reward + gamma * maxFuture - current)
  }

  /** One iteration of the credit-assignment scan, for message `m`. */
  function Step(st: Learner, m: Message, alpha: real, gamma: real): (next: Learner)
    ensures next.pending == st.pending - Refs([m])
    ensures st.q.Keys <= next.q.Keys
    ensures forall k :: k in st.q && k in next.q && next.q[k] != st.q[k] ==>
              m.kind == Verification && m.refId.Some? && m.refId.value in st.pending && st.pending[m.refId.value] == k
  {
    if m.kind == Verification && m.refId.Some? && m.refId.value in st.pending then
      var id := m.refId.value;
      var s := st.pending[id].0;
      var a := st.pending[id].1;
      var newQ := QUpdate(QValue(st.q, s, a), Reward(m.content), MaxQ(st.q, s, Actions), alpha, gamma);
      Learner(st.q[(s, a) := newQ], st.pending - {id})
    else st
  }

  /** The whole scan: `Step` applied to every message of the log in order. */
  function Learn(st: Learner, log: seq<Message>, alpha: real, gamma: real): (r: Learner)
    ensures r.pending.Keys <= st.pending.Keys
    ensures st.q.Keys <= r.q.Keys
    decreases |log|
  {
    if log == [] then st
    else Step(Learn(st, log[..|log| - 1], alpha, gamma), log[|log| - 1], alpha, gamma)
  }

  /** The proposal ids that some verification in the log refers to. */
  function Refs(log: seq<Message>): set<string>
  {
    set m | m in log && m.kind == Verification && m.refId.Some? :: m.refId.value
  }

  lemma LearnSnoc(st: Learner, log: seq<Message>, m: Message, alpha: real, gamma: real)
    ensures Learn(st, log + [m], alpha, gamma) == Step(Learn(st, log, alpha, gamma), m, alpha, gamma)
  {
    assert (log + [m])[..|log|] == log;
  }

  lemma RefsSnoc(log: seq<Message>, m: Message)
    ensures Refs(log + [m]) == Refs(log) + Refs([m])
  {
    assert forall x :: x in log + [m] <==> x in log || x == m;
  }

  /** Credit assignment consumes exactly the referenced ids: afterwards the
      pending map is the old one minus every id that a verification in the
      log refers to, and ids never referenced stay pending with their
      (state, action) pair. */
  lemma {:induction false} LearnPending(st: Learner, log: seq<Message>, alpha: real, gamma: real)
    ensures Learn(st, log, alpha, gamma).pending == st.pending - Refs(log)
    decreases |log|
  {
    if log == [] {
      assert Refs(log) == {};
    } else {
      var init, last := log[..|log| - 1], log[|log| - 1];
      assert log == init + [last];
      LearnPending(st, init, alpha, gamma);
      RefsSnoc(init, last);
      LearnSnoc(st, init, last, alpha, gamma);
    }
  }

  /** A scan finds nothing to do when no pending id is referenced. */
  lemma {:induction false} LearnNoMatch(st: Learner, log: seq<Message>, alpha: real, gamma: real)
    requires st.pending.Keys !! Refs(log)
    ensures Learn(st, log, alpha, gamma) == st
    decreases |log|
  {
    if log != [] {
      var init, last := log[..|log| - 1], log[|log| - 1];
      assert log == init + [last];
      RefsSnoc(init, last);
      LearnNoMatch(st, init, alpha, gamma);
    }
  }

  /** Scanning the same log a second time changes neither the Q-table nor
      the pending decisions. */
  lemma LearnIdempotent(st: Learner, log: seq<Message>, alpha: real, gamma: real)
    ensures Learn(Learn(st, log, alpha, gamma), log, alpha, gamma) == Learn(st, log, alpha, gamma)
  {
    LearnPending(st, log, alpha, gamma);
    LearnNoMatch(Learn(st, log, alpha, gamma), log, alpha, gamma);
  }

  /** Scanning a concatenation is scanning its parts in turn. */
  lemma {:induction false} LearnAppend(st: Learner, a: seq<Message>, b: seq<Message>, alpha: real, gamma: real)
    ensures Learn(st, a + b, alpha, gamma) == Learn(Learn(st, a, alpha, gamma), b, alpha, gamma)
    decreases |b|
  {
    if b == [] {
      assert a + b == a;
    } else {
      var init, last := b[..|b| - 1], b[|b| - 1];
      assert b == init + [last];
      assert a + b == (a + init) + [last];
      LearnAppend(st, a, init, alpha, gamma);
      LearnSnoc(st, a + init, last, alpha, gamma);
      LearnSnoc(Learn(st, a, alpha, gamma), init, last, alpha, gamma);
    }
  }

  /** Rescanning a log that has grown: the feedback already in the old part
      does nothing when no pending id is referenced there, so only the new
      part counts. */
  lemma RescanGrownLog(st: Learner, consumed: seq<Message>, extra: seq<Message>, alpha: real, gamma: real)
    requires st.pending.Keys !! Refs(consumed)
    ensures Learn(st, consumed + extra, alpha, gamma) == Learn(st, extra, alpha, gamma)
  {
    LearnAppend(st, consumed, extra, alpha, gamma);
    LearnNoMatch(st, consumed, alpha, gamma);
  }

  /** Two verifications of the same proposal update the Q-table once: the
      second one, wherever it stands after the first, is a no-op. */
  lemma DuplicateFeedbackIgnored(st: Learner, pre: seq<Message>, v1: Message, mid: seq<Message>, v2: Message,
                                 alpha: real, gamma: real)
    requires v1.kind == Verification && v1.refId.Some?
    requires v2.kind == Verification && v2.refId == v1.refId
    ensures Learn(st, pre + [v1] + mid + [v2], alpha, gamma) == Learn(st, pre + [v1] + mid, alpha, gamma)
  {
    var before := pre + [v1] + mid;
    LearnSnoc(st, before, v2, alpha, gamma);
    LearnPending(st, before, alpha, gamma);
    assert v1 in before;
    assert v1.refId.value in Refs(before);
  }

  /** The convex blend (1 - alpha) * q0 + alpha * target. */
  function Blend(q0: real, target: real, alpha: real): real
  {
    (1.0 - alpha) * q0 + alpha * target
  }

  /** The update moves the old value a fraction alpha of the way towards
      the target r + gamma * max_future: it is the convex blend of the two,
      so with 0 <= alpha <= 1 it lies between the old value and the target. */
  lemma QUpdateBlend(current: real, reward: real, maxFuture: real, alpha: real, gamma: real)
    ensures QUpdate(current, reward, maxFuture, alpha, gamma) == Blend(current, reward + gamma * maxFuture, alpha)
    ensures var target := reward + gamma * maxFuture;
            var r := QUpdate(current, reward, maxFuture, alpha, gamma);
            0.0 <= alpha <= 1.0 ==>
              (current <= target ==> current <= r <= target) && (target <= current ==> target <= r <= current)
  {
    var target := reward + gamma * maxFuture;
    var r := QUpdate(current, reward, maxFuture, alpha, gamma);
    var delta := target - current;
    assert r == current + alpha * delta;
    if 0.0 <= alpha <= 1.0 {
      if current <= target {
        ScaleBelow(alpha, delta);
      } else {
        ScaleBelow(alpha, -delta);
        assert alpha * -delta == -(alpha * delta);
      }
    }
  }

  /** Scaling a non-negative amount by a fraction in [0, 1] keeps it
      between 0 and the amount. */
  lemma ScaleBelow(alpha: real, x: real)
    requires 0.0 <= alpha <= 1.0 && 0.0 <= x
    ensures 0.0 <= alpha * x <= x
  {
    assert alpha * x <= 1.0 * x;
  }

  /** A matched verification performs the one-step Q-learning update on the
      pair (s, a) recorded for its proposal, with the maximum taken over the
      same state s: the entry becomes the blend of its old value and
      reward + gamma * max_b Q(s, b), every other entry keeps its value, and
      the id is no longer pending. */
  lemma UpdateRule(st: Learner, log: seq<Message>, v: Message, alpha: real, gamma: real)
    requires v.kind == Verification && v.refId.Some?
    requires v.refId.value in Learn(st, log, alpha, gamma).pending
    ensures var prev := Learn(st, log, alpha, gamma);
            var s, a := prev.pending[v.refId.value].0, prev.pending[v.refId.value].1;
            var next := Learn(st, log + [v], alpha, gamma);
            && next.q == prev.q[(s, a) := QUpdate(QValue(prev.q, s, a), Reward(v.content), MaxQ(prev.q, s, Actions), alpha, gamma)]
            && next.pending == prev.pending - {v.refId.value}
  {
    var prev := Learn(st, log, alpha, gamma);
    LearnSnoc(st, log, v, alpha, gamma);
    var s, a := prev.pending[v.refId.value].0, prev.pending[v.refId.value].1;
  }

  /** Every Q-value lies in [-b, b]. */
  ghost predicate Bounded(q: QTable, b: real)
  {
    forall k :: k in q ==> -b <= q[k] <= b
  }

  lemma TargetBounded(reward: real, maxFuture: real, gamma: real, b: real)
    requires reward == 1.0 || reward == -1.0
    requires 0.0 <= gamma && -b <= maxFuture <= b
    requires 1.0 + gamma * b <= b
    ensures -b <= reward + gamma * maxFuture <= b
  {
    assert gamma * maxFuture <= gamma * b;
    assert gamma * -b <= gamma * maxFuture;
  }

  /** With 0 <= alpha <= 1, rewards of +-1 and a bound b with
      1 + gamma * b <= b (b = 1 / (1 - gamma) is the least such, 10 for the
      default gamma 0.9), one step keeps every Q-value within [-b, b]. */
  lemma StepBounded(st: Learner, m: Message, alpha: real, gamma: real, b: real)
    requires 0.0 <= alpha <= 1.0 && 0.0 <= gamma
    requires 0.0 <= b && 1.0 + gamma * b <= b
    requires Bounded(st.q, b)
    ensures Bounded(Step(st, m, alpha, gamma).q, b)
  {
    if m.kind == Verification && m.refId.Some? && m.refId.value in st.pending {
      var id := m.refId.value;
      var s, a := st.pending[id].0, st.pending[id].1;
      var maxFuture := MaxQ(st.q, s, Actions);
      var j :| 0 <= j < |Actions| && maxFuture == QValue(st.q, s, Actions[j]);
      var reward := Reward(m.content);
      TargetBounded(reward, maxFuture, gamma, b);
      var q0 := QValue(st.q, s, a);
      QUpdateBlend(q0, reward, maxFuture, alpha, gamma);
      assert -b <= QUpdate(q0, reward, maxFuture, alpha, gamma) <= b;
    }
  }

  /** The whole scan keeps the Q-values within [-b, b]. */
  lemma {:induction false} LearnBounded(st: Learner, log: seq<Message>, alpha: real, gamma: real, b: real)
    requires 0.0 <= alpha <= 1.0 && 0.0 <= gamma
    requires 0.0 <= b && 1.0 + gamma * b <= b
    requires Bounded(st.q, b)
    ensures Bounded(Learn(st, log, alpha, gamma).q, b)
    decreases |log|
  {
    if log != [] {
      LearnBounded(st, log[..|log| - 1], alpha, gamma, b);
      StepBounded(Learn(st, log[..|log| - 1], alpha, gamma), log[|log| - 1], alpha, gamma, b);
    }
  }
}
