/** The negotiation workflow's shared state (backend/app/agent/state.py): a dictionary of optional fields, all
    overwritten by a node's partial update, plus the `messages` list, which updates extend (`operator.add`). */
module AgentState {
  import opened Wrappers
  import opened LlmBase
  import PolicyEngine
  import SupplierIntelligence

  /** The keys of `NegotiationState` other than `messages`. */
  datatype Field =
    | ContractId | SupplierId | CurrentClauseText
    | PolicyAnalysis | RiskProfile
    | StrategyDecision | ProposedRedline | Reasoning
    | AgencyLevel | HumanApprovalStatus | HumanFeedback

  /** What the lawyer stores under `policy_analysis`. */
  datatype PolicyAnalysisValue =
    | Skipped(reasoning: string)
    | Evaluated(result: PolicyEngine.EvaluationResult)

  /** A value stored under a key; `Null` is Python's None. */
  datatype Value =
    | Str(text: string)
    | Null
    | Analysis(analysis: PolicyAnalysisValue)
    | Profile(profile: SupplierIntelligence.RiskProfile)

  /** A key that is absent differs from a key holding None, as in the dictionary. */
  datatype State = State(values: map<Field, Value>, messages: seq<Message>)

  /** A node's partial return dictionary. */
  datatype Update = Update(writes: map<Field, Value>, messages: seq<Message>)

  const Empty := State(map[], [])
  const NoChange := Update(map[], [])

  /** `state.get(key)`: the stored value, or None when the key is absent. */
  function Get(s: State, f: Field): (v: Value)
    ensures f !in s.values ==> v == Null
  {
    if f in s.values then s.values[f] else Null
  }

  /** The merge the graph applies after each node: keys the update carries are overwritten, the others are
      kept, and the update's messages are appended. */
  function Apply(s: State, u: Update): (r: State)
    ensures r.messages == s.messages + u.messages
    ensures r.values.Keys == s.values.Keys + u.writes.Keys
    ensures forall f :: f in u.writes ==> r.values[f] == u.writes[f]
    ensures forall f :: f !in u.writes && f in s.values ==> r.values[f] == s.values[f]
  {
    State(s.values + u.writes, s.messages + u.messages)
  }

  /** Two updates in a row, as one. */
  function Then(u1: Update, u2: Update): Update {
    Update(u1.writes + u2.writes, u1.messages + u2.messages)
  }

  lemma MapOverrideAssociative<K, V>(a: map<K, V>, b: map<K, V>, c: map<K, V>)
    ensures (a + b) + c == a + (b + c)
  {
    assert forall k :: k in (a + b) + c <==> k in a + (b + c);
  }

  /** Merging two updates one after the other is merging their combination. */
  lemma ApplyThen(s: State, u1: Update, u2: Update)
    ensures Apply(Apply(s, u1), u2) == Apply(s, Then(u1, u2))
  {
    MapOverrideAssociative(s.values, u1.writes, u2.writes);
  }

  /** The empty update changes nothing, and updates combine associatively with it as unit. */
  lemma UpdateMonoid(s: State, u1: Update, u2: Update, u3: Update)
    ensures Apply(s, NoChange) == s
    ensures Then(NoChange, u1) == u1 && Then(u1, NoChange) == u1
    ensures Then(Then(u1, u2), u3) == Then(u1, Then(u2, u3))
  {
    assert s.values + map[] == s.values;
    assert map[] + u1.writes == u1.writes;
    assert u1.writes + map[] == u1.writes;
    MapOverrideAssociative(u1.writes, u2.writes, u3.writes);
  }

  /** The state after a sequence of updates, merged in order. */
  function ApplyAll(s: State, us: seq<Update>): State {
    if us == [] then s else Apply(ApplyAll(s, us[..|us| - 1]), us[|us| - 1])
  }

  /** Merging one more update of the sequence. */
  lemma ApplyAllPrefix(s: State, us: seq<Update>, i: nat)
    requires i < |us|
    ensures ApplyAll(s, us[..i + 1]) == Apply(ApplyAll(s, us[..i]), us[i])
  {
    assert us[..i + 1][..i] == us[..i];
  }

  /** All the updates' messages, in order. */
  function AllMessages(us: seq<Update>): seq<Message> {
    if us == [] then [] else AllMessages(us[..|us| - 1]) + us[|us| - 1].messages
  }

  /** Messages accumulate in update order: the final list is the initial one followed by each update's messages. */
  lemma {:induction false} ApplyAllMessages(s: State, us: seq<Update>)
    ensures ApplyAll(s, us).messages == s.messages + AllMessages(us)
  {
    if us != [] {
      ApplyAllMessages(s, us[..|us| - 1]);
    }
  }

  /** The message list never shrinks: the earlier list is always a prefix of the later one. */
  lemma MessagesNeverShrink(s: State, us: seq<Update>)
    ensures |ApplyAll(s, us).messages| >= |s.messages|
    ensures ApplyAll(s, us).messages[..|s.messages|] == s.messages
  {
    ApplyAllMessages(s, us);
  }

  /** A key no update carries keeps its earlier value (or stays absent). */
  lemma {:induction false} UntouchedFieldSurvives(s: State, us: seq<Update>, f: Field)
    requires forall k :: 0 <= k < |us| ==> f !in us[k].writes
    ensures f in ApplyAll(s, us).values <==> f in s.values
    ensures Get(ApplyAll(s, us), f) == Get(s, f)
  {
    if us != [] {
      UntouchedFieldSurvives(s, us[..|us| - 1], f);
    }
  }

  /** The last update that carries a key decides its value. */
  lemma {:induction false} LastWriteWins(s: State, us: seq<Update>, f: Field, j: nat)
    requires j < |us| && f in us[j].writes
    requires forall k :: j < k < |us| ==> f !in us[k].writes
    ensures f in ApplyAll(s, us).values && ApplyAll(s, us).values[f] == us[j].writes[f]
  {
    if j < |us| - 1 {
      LastWriteWins(s, us[..|us| - 1], f, j);
    }
  }
}
