# Blackboard agents with a Q-learning generator, in Dafny

This project models the core of a small multi-agent simulation. Agents take
turns on a shared blackboard, which is an append-only log of typed messages.
A generator posts proposals ("Hypothesis_<n>"). A verifier picks one proposal
and posts a verification that refers back to it ("Verified: …" or
"Rejected: …"). A synthesizer combines two proposals into a synthesis
message. A reinforcement-learning generator picks the kind of proposal it
posts ("low", "medium" or "high") by an epsilon-greedy policy over a Q-table.
It learns from the verifications of its own proposals, using a map of
pending decisions keyed by proposal id. A metrics collector records, after
every round, how many messages of each type the log holds.

Modules:

- `Messages` (messages.dfy): the message record and its type tag. It also
  holds the comprehension that filters the log by type, the per-type count,
  Python's substring test and the decimal rendering of an integer.
- `Learning` (learning.dfy): the action list and the Q-table. It holds the
  greedy choice and the maximum over actions. The credit-assignment scan is
  specified as a fold (`Learn`) of one step per message (`Step`).
- `Agents` (agents.dfy): the blackboard, and the three stateless agents as a
  datatype whose `Process` is a pure function of the snapshot. The
  `RLGenerator` class holds the Q-table and the pending-decision map as
  fields that its methods update in place. `UpdateQValues` is the scanning
  loop, proved equal to `Learn`. This module also holds the log invariant
  that every turn keeps.
- `Metrics` (metrics.dfy): the collector class with its three parallel
  histories.
- `Coordinator` (coordinator.dfy): one round of the main loop, run
  sequentially. All turns come first, then credit assignment, then metrics.

Randomness, `uuid4` and `time.time()` are parameters. One `Draws` value per
turn carries the fresh id, the timestamp, the confidence, the
`random.random()` roll (a real in [0, 1)), the `random.choice` picks (position `pick % n`) and
the `random.randint` value. Q-values are exact `real`s.

Two behaviours of the code are worth stating:

- A verification whose reference is not pending is skipped without any
  error. `Step` skips it too.
- The reward tests whether "Verified" occurs anywhere in the content.
  `Agents.VerdictReward` proves that this equals the verifier's verdict for
  every verification built from a well-formed log.

## Model

| member | source | states |
|---|---|---|
| Messages.OfKind | agents.py:44 | The filtered list holds only messages of the requested type taken from the log, and every message of that type in the log is in it. |
| Messages.Count | metrics.py:9-11 | The count of a type is at most the length of the log, and it is zero exactly when no message in the log has that type. |
| Messages.CountPartition | metrics.py:9-11 | The proposal, verification and synthesis counts of a log add up to its length, because every message has exactly one of the three types. |
| Messages.CountMonotone | metrics.py:9-11 | If one log is a prefix of another, no per-type count of the longer log is smaller. |
| Messages.Digits | agents.py:29 | `str(n)` gives a non-empty string of decimal digits. |
| Messages.Contains | agents.py:137 | Python's `sub in s` holds whenever `sub` is a prefix of `s`, and only when `sub` is no longer than `s`. |
| Messages.ContainsAt | agents.py:137 | `sub in s` holds exactly when `sub` occurs at some position of `s`. |
| Learning.Greedy | agents.py:109-110 | `max(q_values, key=q_values.get)` returns an action whose Q-value (0 when absent) is at least that of every listed action. Every action listed before it has a strictly smaller value, so on ties the first action wins. |
| Learning.GreedyAction | agents.py:107-110 | The greedy action has a Q-value at least that of every action. No action before it in `["low","medium","high"]` has the same value. |
| Learning.MaxQ | agents.py:139 | `max_future` is at least the Q-value of every action for the same state, and equals one of them. |
| Learning.GreedyAttainsMax | agents.py:139 | The Q-value of the greedy action for a state equals `max_future` for that state. |
| Learning.QValue | agents.py:138 | `q_table.get((state, action), 0)`: an absent pair reads as 0, and a present pair reads as its own entry. |
| Learning.Reward | agents.py:137 | The reward is +1 or −1, and +1 exactly when the content contains "Verified". |
| Learning.QUpdate | agents.py:140 | With alpha 0 the value stays as it was. With alpha 1 it becomes the target reward + gamma·max_future. |
| Learning.Step | agents.py:132-143 | One message of the scan. The pending map loses exactly the id the message refers to, when it is a verification. No Q-table key disappears. An existing entry changes only when it is the pair recorded for that pending id. |
| Learning.Learn | agents.py:131-143 | The whole scan, one `Step` per message in log order. It never adds a pending id and never removes a Q-table key. |
| Learning.LearnPending | agents.py:131-143 | After a scan, the pending map is the old map minus every id that some verification in the log refers to. Ids that no verification refers to stay pending with their (state, action) pair. |
| Learning.LearnNoMatch | agents.py:131-134 | A scan of a log that refers to no pending id changes neither the Q-table nor the pending map. |
| Learning.LearnIdempotent | agents.py:129-143 | Calling `update_q_values` a second time on the same log changes neither `q_table` nor `last_actions`. |
| Learning.LearnAppend | agents.py:131 | Scanning two logs joined end to end is the same as scanning the first and then the second. |
| Learning.RescanGrownLog | agents.py:131-143 | If no pending id is referenced by feedback in the old part of a grown log, rescanning the whole log has the same effect as scanning only the new part. |
| Learning.DuplicateFeedbackIgnored | agents.py:134-143 | A second verification of the same proposal, anywhere after the first in the log, has no effect, so the proposal is credited once. |
| Learning.UpdateRule | agents.py:135-143 | Take a verification whose reference is pending with pair (s, a). It sets `q[(s,a)]` to the update applied to the old value, the reward, and the maximum over the same state s. No other entry changes, and the id is removed from the pending map. |
| Learning.QUpdateBlend | agents.py:140 | The update equals (1 − alpha)·q0 + alpha·(r + gamma·max_future). When 0 ≤ alpha ≤ 1 the new value lies between the old value and that target. |
| Learning.StepBounded | agents.py:137-141 | Assume 0 ≤ alpha ≤ 1, gamma ≥ 0 and rewards of ±1. Then one update keeps every Q-value in [−b, b] for any b ≥ 0 with 1 + gamma·b ≤ b, for example b = 10 at the default gamma of 0.9. |
| Learning.LearnBounded | agents.py:129-143 | Under the same conditions, a whole scan keeps every Q-value in [−b, b]. |
| Agents.Blackboard.constructor | main.py:7-10 | The shared context starts with an empty message log. |
| Agents.WriteContext | agents.py:17-18 | `write_context` appends the message at the tail of the log and changes nothing else in it. |
| Agents.Agent.Act | agents.py:20-24 | `act` appends exactly the message that `process` returns, or leaves the log unchanged when it returns None. Earlier messages are never modified. |
| Agents.Generate | agents.py:28-39 | The generator always yields a proposal with the fresh id, its own agent id and no reference. Its content contains no 'V'. |
| Agents.Verdict | agents.py:47 | The verdict is "Verified" or "Rejected", and "Verified" exactly when the roll exceeds 0.3. Only "Verified" contains a 'V'. |
| Agents.Verify | agents.py:43-59 | The verifier yields nothing exactly when the snapshot holds no proposal. Otherwise it yields a verification with the fresh id whose `ref_id` is the id of a proposal in the snapshot. Its content is "Verified: " or "Rejected: " followed by that proposal's content, "Verified" exactly when the roll exceeds 0.3. |
| Agents.Synthesize | agents.py:63-77 | The synthesizer yields nothing exactly when the snapshot holds fewer than two proposals. Otherwise it yields a synthesis without a reference, combining the contents of two proposals of the snapshot. |
| Agents.Agent.Process | agents.py:28-77 | The generator always yields a message. Any message has the fresh id and the agent's own id. Its type is proposal exactly for the generator and verification exactly for the verifier. A proposal has no 'V', and a verification refers to a proposal of the snapshot. |
| Agents.DiscretizeState | agents.py:93-101 | The state is 0 for fewer than 3 proposals, 2 for more than 5 and 1 otherwise, so it is always in {0, 1, 2}. |
| Agents.DiscretizeMonotone | agents.py:95-101 | The state is monotone in the number of proposals. |
| Agents.DiscretizeGrows | agents.py:95 | Appending messages to the log never lowers the state. |
| Agents.ProposeAction | agents.py:115-124 | The RL proposal has the fresh id, its own agent id and no reference. Its content contains the chosen action's label and no 'V'. |
| Agents.RLGenerator.constructor | agents.py:81-91 | A new learner starts with an empty Q-table, no pending decisions and the given hyperparameters (defaults 0.2, 0.1, 0.9). |
| Agents.RLGenerator.ChooseAction | agents.py:103-110 | In the greedy branch (roll ≥ epsilon), the chosen action has maximal Q-value for the state, and no earlier action ties with it. The exploring branch picks from the same fixed action list. |
| Agents.RLGenerator.Process | agents.py:112-127 | Returns the proposal for the chosen action and adds exactly the entry id ↦ (state, action) to `last_actions`. All other entries and the Q-table are unchanged. |
| Agents.RLGenerator.UpdateQValues | agents.py:129-143 | The loop leaves the Q-table and the pending map equal to `Learn` applied to their old values and the whole log. The `Learning` lemmas give the per-verification update, the deletion, idempotence and single crediting. |
| Agents.RLGenerator.Act | agents.py:20-24 | The RL agent's turn appends exactly its one proposal to the log and records the decision under that proposal's id. The Q-table is unchanged. |
| Agents.AppendKeepsWellFormed | agents.py:17-18 | Appending a message keeps the log well formed if its id is fresh, a verification refers to a proposal already in the log, and a proposal has no 'V'. Well formed means unique ids, every verification referring to an earlier proposal, and no 'V' in any proposal. |
| Agents.ProcessKeepsWellFormed | agents.py:28-77 | Every turn of the generator, verifier or synthesizer with a fresh id keeps the log well formed. In particular each `ref_id` resolves to a proposal earlier in the log. |
| Agents.RefsAreIds | agents.py:56 | In a well-formed log every referenced id is the id of a message in the log. |
| Agents.VerdictReward | agents.py:137 | On a well-formed log, the reward computed from a verification's content is +1 exactly when the verifier's verdict was "Verified", and −1 otherwise. |
| Metrics.MetricsCollector.constructor | metrics.py:2-5 | The three histories start empty. |
| Metrics.MetricsCollector.Update | metrics.py:7-14 | Each history grows by exactly one element, the count of its type in the whole current log. Earlier elements are unchanged, and the three lengths stay equal. |
| Metrics.MetricsCollector.EntriesCoverLog | metrics.py:9-14 | The three entries of one update add up to the length of the log at that update, so their sum is at most that length. |
| Metrics.MetricsCollector.EntriesMonotone | metrics.py:9-14 | When the log only grew by appending between two updates, each count in the later entry is at least the earlier one. |
| Coordinator.Turns | main.py:18-20 | What the turns of the agent list append: each agent's `process` result, in list order, decided on the log as the earlier turns left it. At most one message per agent. |
| Coordinator.TurnsIds | main.py:18-20 | Every message the turns append carries the fresh id of one of the turns' draws. |
| Coordinator.TurnsKeepWellFormed | main.py:18-20 | With ids new to the log and distinct from each other, the turns keep the log well formed. |
| Coordinator.OtherTurns | main.py:18-20 | Running the turns one after another leaves the log equal to the old log followed by `Turns` of it, and well formed. |
| Coordinator.RunIteration | main.py:23-32 | A round runs the turns, then `update_q_values`, then `metrics.update`. The new log is the old log, then the learner's proposal for its chosen action, then `Turns` of the other agents on the log that holds that proposal. It stays well formed. No pending id is referenced by feedback in the log, and every pending id names one of the learner's own proposals. The scan credited exactly the feedback that arrived during this round, starting from this round's new decision. |

## Left out

- Concurrency: `run_in_executor`, `asyncio.gather` and `asyncio.sleep` in main.py are not modelled. `Coordinator.RunIteration` runs the turns one after another, the learning agent first and then the list in order. That is one of the interleavings the concurrent run can produce. Other orders are not covered.
- Coordinator.RunIteration: has exactly one learning agent, placed before the other agents (as in main.py's agent list). The source calls `update_q_values` on every agent that has it.
- Randomness and identity: `random.*`, `uuid.uuid4()` and `time.time()` are inputs (`Draws`). The `random.random()` roll is a real in [0, 1), as Python returns. Distributions are not modelled, and the range of `random.randint(1, 100)` is not enforced: any natural number is accepted. Fresh ids are assumed new and distinct only where a lemma or the round says so.
- Confidence and timestamp are opaque `real`s passed through unchanged. Their sampling ranges ([0.5, 1.0] and [0.6, 1.0]) are not modelled.
- Floating point: Q-values and the update are exact real arithmetic. No rounding, and no convergence claims.
- Printing: `report_q_table`, `MetricsCollector.report`, and the per-round message printing and banner of main.py.
- The context's `iteration` entry and the agent instantiation in main.py.
- The default of an empty list when the context has no "messages" entry, in `read_context` (agents.py:11), `update_q_values` (agents.py:131) and `MetricsCollector.update` (metrics.py:8): the blackboard always has its log.
- Message types are an enumeration of the three types the agents produce. A message with any other type string cannot arise, so the three counts add up to exactly the log length.
- Actions are an enumeration. That the chosen action is a member of the action list holds by construction, in the exploring branch as well.
- The truthiness test `if message:` is modelled as `Some`/`None`. Every message the agents build is a non-empty record.
