/** The negotiation graph (backend/app/agent/graph.py) and the checkpointing executor it is compiled into.
    The graph is the fixed chain lawyer -> analyst -> negotiator -> gatekeeper -> scribe -> END; the executor
    keeps one checkpoint per thread id, writes it after every node, and stops when the gatekeeper suspends.
    A later resume re-enters the gatekeeper with the human's reply and carries on to the end. */
module AgentGraph {
  import opened Wrappers
  import opened LlmBase
  import opened AgentState
  import AgentNodes
  import PolicyEngine

  datatype Node = Lawyer | Analyst | Negotiator | Gatekeeper | Scribe

  /** The name a node is registered under. */
  function Name(n: Node): string {
    match n
    case Lawyer => "lawyer"
    case Analyst => "analyst"
    case Negotiator => "negotiator"
    case Gatekeeper => "gatekeeper"
    case Scribe => "scribe"
  }

  /** The name of the terminal pseudo-node. */
  const End := "__end__"

  function NodeNamed(name: string): (r: Option<Node>)
    ensures r.Some? ==> Name(r.value) == name
    ensures forall n: Node :: Name(n) == name ==> r == Some(n)
  {
    if name == "lawyer" then Some(Lawyer)
    else if name == "analyst" then Some(Analyst)
    else if name == "negotiator" then Some(Negotiator)
    else if name == "gatekeeper" then Some(Gatekeeper)
    else if name == "scribe" then Some(Scribe)
    else None
  }

  /** The node after `n` in the chain, None after the scribe. */
  function Successor(n: Node): (r: Option<Node>)
    ensures r.Some? ==> Rank(r.value) == Rank(n) + 1
  {
    match n
    case Lawyer => Some(Analyst)
    case Analyst => Some(Negotiator)
    case Negotiator => Some(Gatekeeper)
    case Gatekeeper => Some(Scribe)
    case Scribe => None
  }

  /** Position in the chain; every edge goes one step forward. */
  function Rank(n: Node): (r: nat)
    ensures r < 5
  {
    match n
    case Lawyer => 0
    case Analyst => 1
    case Negotiator => 2
    case Gatekeeper => 3
    case Scribe => 4
  }

  /** The edges the builder adds, by name. */
  const ChainEdges: set<(string, string)> :=
    {("lawyer", "analyst"), ("analyst", "negotiator"), ("negotiator", "gatekeeper"),
     ("gatekeeper", "scribe"), ("scribe", End)}

  /** Each node has exactly one outgoing edge: to its successor, or to END after the scribe. */
  lemma ChainEdgesFollowSuccessor(n: Node, t: string)
    ensures (Name(n), t) in ChainEdges <==>
            (if Successor(n).Some? then t == Name(Successor(n).value) else t == End)
  {
  }

  /** The nodes in the order an uninterrupted walk from `n` visits them. */
  function ChainFrom(n: Node): seq<Node>
    decreases 5 - Rank(n)
  {
    match Successor(n)
    case None => [n]
    case Some(m) => [n] + ChainFrom(m)
  }

  // ---- The walk ----

  /** Why a walk stopped. */
  datatype Stop = Done | Paused(at: Node, payload: AgentNodes.Payload) | Failed(at: Node, cause: string)

  /** The state when the walk stopped, the nodes that completed, in order, and why it stopped. */
  datatype Outcome = Outcome(state: State, trace: seq<Node>, stop: Stop)

  /** Runs one node. Only the gatekeeper calls `interrupt`, so only it sees the resume value. */
  function Execute(n: Node, s: State, env: AgentNodes.Env, resume: Option<AgentNodes.ResumeValue>)
    : (r: AgentNodes.NodeResult)
    ensures r.Suspend? ==> n == Gatekeeper
    ensures r.Emit? ==> (r.update.messages == [] <==> n != Scribe) && |r.update.messages| <= 1
  {
    match n
    case Lawyer => AgentNodes.Lawyer(s, env)
    case Analyst => AgentNodes.Analyst(s, env)
    case Negotiator => AgentNodes.Negotiator(s, env)
    case Gatekeeper => AgentNodes.Gatekeeper(s, env.configuredLevel, resume)
    case Scribe => AgentNodes.Scribe(s, env)
  }

  /** A way of running nodes; the walk below is stated for any, and the workflow uses `NodesOf(env)`. */
  type Runner = (Node, State, Option<AgentNodes.ResumeValue>) -> AgentNodes.NodeResult

  function NodesOf(env: AgentNodes.Env): Runner {
    (n, s, resume) => Execute(n, s, env, resume)
  }

  /** The shape of the workflow's nodes: only the gatekeeper suspends, and only the scribe writes messages,
      one per run. */
  ghost predicate WorkflowShaped(run: Runner) {
    forall n, s, resume :: var r := run(n, s, resume);
      && (r.Suspend? ==> n == Gatekeeper)
      && (r.Emit? ==> (r.update.messages == [] <==> n != Scribe) && |r.update.messages| <= 1)
  }

  lemma NodesAreWorkflowShaped(env: AgentNodes.Env)
    ensures WorkflowShaped(NodesOf(env))
  {
    forall n, s, resume ensures var r := NodesOf(env)(n, s, resume);
      && (r.Suspend? ==> n == Gatekeeper)
      && (r.Emit? ==> (r.update.messages == [] <==> n != Scribe) && |r.update.messages| <= 1)
    {
      var r := Execute(n, s, env, resume);
    }
  }

  /** The walk from node `n`: run it, merge its update, follow the edge; stop at END, at a suspension or at an
      exception, keeping the state as of the last completed node. */
  function Walk(s: State, n: Node, run: Runner, resume: Option<AgentNodes.ResumeValue>): (o: Outcome)
    ensures |o.trace| <= 5 - Rank(n)
    ensures o.stop.Done? ==> |o.trace| == 5 - Rank(n)
    ensures o.trace == [] ==> o.state == s && !o.stop.Done?
    decreases 5 - Rank(n)
  {
    var r := run(n, s, resume);
    if !r.Emit? then Outcome(s, [], Halt(n, r))
    else if Successor(n).None? then Outcome(Apply(s, r.update), [n], Done)
    else Continue([n], Walk(Apply(s, r.update), Successor(n).value, run, None))
  }

  /** Why a node that did not complete stopped the walk. */
  function Halt(n: Node, r: AgentNodes.NodeResult): Stop
    requires !r.Emit?
  {
    if r.Fail? then Failed(n, r.cause) else Paused(n, r.payload)
  }

  /** An outcome reached after the nodes in `trace` have completed. */
  function Continue(trace: seq<Node>, o: Outcome): Outcome {
    o.(trace := trace + o.trace)
  }

  lemma ContinueCompose(trace: seq<Node>, n: Node, o: Outcome)
    ensures Continue(trace, Continue([n], o)) == Continue(trace + [n], o)
    ensures CheckpointOf(Continue(trace, o)) == CheckpointOf(o)
  {
    assert trace + ([n] + o.trace) == (trace + [n]) + o.trace;
  }

  /** One step of the walk, unfolded for the executor: a node that stops the walk. */
  lemma WalkStops(s: State, n: Node, run: Runner, resume: Option<AgentNodes.ResumeValue>)
    requires !run(n, s, resume).Emit?
    ensures run(n, s, resume).Fail? ==> Walk(s, n, run, resume) == Outcome(s, [], Failed(n, run(n, s, resume).cause))
    ensures run(n, s, resume).Suspend? ==> Walk(s, n, run, resume) == Outcome(s, [], Paused(n, run(n, s, resume).payload))
  {
  }

  /** One step of the walk: a node that completes and hands over to its successor (or finishes the walk). */
  lemma WalkContinues(s: State, n: Node, run: Runner, resume: Option<AgentNodes.ResumeValue>, u: Update)
    requires run(n, s, resume) == AgentNodes.Emit(u)
    ensures Successor(n).None? ==> Walk(s, n, run, resume) == Outcome(Apply(s, u), [n], Done)
    ensures Successor(n).Some? ==> Walk(s, n, run, resume) == Continue([n], Walk(Apply(s, u), Successor(n).value, run, None))
  {
  }

  /** Nodes run in chain order, each at most once: the completed nodes and the one that stopped the walk are a
      prefix of the chain, and a finished walk completed the whole chain. */
  lemma {:induction false} WalkFollowsChain(s: State, n: Node, run: Runner, resume: Option<AgentNodes.ResumeValue>)
    ensures var o := Walk(s, n, run, resume);
            && (o.stop.Done? ==> o.trace == ChainFrom(n))
            && (!o.stop.Done? ==> o.trace + [o.stop.at] == ChainFrom(n)[..|o.trace| + 1])
    decreases 5 - Rank(n)
  {
    var res := run(n, s, resume);
    if res.Emit? && Successor(n).Some? {
      var m := Successor(n).value;
      var s' := Apply(s, res.update);
      WalkFollowsChain(s', m, run, None);
      var o := Walk(s', m, run, None);
      assert ChainFrom(n) == [n] + ChainFrom(m);
      if !o.stop.Done? {
        assert ([n] + o.trace) + [o.stop.at] == [n] + (o.trace + [o.stop.at]);
        assert ([n] + ChainFrom(m))[..|o.trace| + 2] == [n] + ChainFrom(m)[..|o.trace| + 1];
      }
    }
  }

  /** Only the gatekeeper suspends, so a paused walk is paused there. */
  lemma {:induction false} PausesOnlyAtGatekeeper(s: State, n: Node, run: Runner, resume: Option<AgentNodes.ResumeValue>)
    requires WorkflowShaped(run)
    ensures Walk(s, n, run, resume).stop.Paused? ==> Walk(s, n, run, resume).stop.at == Gatekeeper
    decreases 5 - Rank(n)
  {
    var res := run(n, s, resume);
    if res.Emit? && Successor(n).Some? {
      PausesOnlyAtGatekeeper(Apply(s, res.update), Successor(n).value, run, None);
    }
  }

  /** Only the scribe writes messages, one per run: a walk appends exactly one message when it finishes and
      none otherwise, and never drops an earlier one. */
  lemma {:induction false} WalkMessages(s: State, n: Node, run: Runner, resume: Option<AgentNodes.ResumeValue>)
    requires WorkflowShaped(run)
    ensures var o := Walk(s, n, run, resume);
            && |o.state.messages| == |s.messages| + (if o.stop.Done? then 1 else 0)
            && o.state.messages[..|s.messages|] == s.messages
    decreases 5 - Rank(n)
  {
    var res := run(n, s, resume);
    if res.Emit? && Successor(n).Some? {
      var s' := Apply(s, res.update);
      WalkMessages(s', Successor(n).value, run, None);
      assert s'.messages == s.messages;
    }
  }

  lemma ChainFromEntry()
    ensures ChainFrom(Lawyer) == [Lawyer, Analyst, Negotiator, Gatekeeper, Scribe]
  {
  }

  /** For any runner of the workflow's shape, a walk from the entry that pauses has completed lawyer, analyst
      and negotiator and is stopped at the gatekeeper. */
  lemma {:induction false} PausedAfterThree(s: State, run: Runner)
    requires WorkflowShaped(run)
    requires Walk(s, Lawyer, run, None).stop.Paused?
    ensures Walk(s, Lawyer, run, None).stop.at == Gatekeeper
    ensures Walk(s, Lawyer, run, None).trace == [Lawyer, Analyst, Negotiator]
  {
    var o := Walk(s, Lawyer, run, None);
    PausesOnlyAtGatekeeper(s, Lawyer, run, None);
    WalkFollowsChain(s, Lawyer, run, None);
    ChainFromEntry();
    var chain := [Lawyer, Analyst, Negotiator, Gatekeeper, Scribe];
    var k := |o.trace|;
    assert (o.trace + [o.stop.at])[k] == chain[k];
    assert chain[k] == Gatekeeper;
    assert k == 3;
    assert o.trace == (o.trace + [o.stop.at])[..3] == chain[..3];
  }

  /** A walk of the workflow from the entry that pauses has completed lawyer, analyst and negotiator and is
      stopped before the scribe; the payload carries the reasoning in the state it stopped with. */
  lemma PausedBeforeScribe(s: State, env: AgentNodes.Env)
    requires Walk(s, Lawyer, NodesOf(env), None).stop.Paused?
    ensures var o := Walk(s, Lawyer, NodesOf(env), None);
            && o.stop.at == Gatekeeper
            && o.trace == [Lawyer, Analyst, Negotiator]
            && o.stop.payload == AgentNodes.Payload("approval_required", Get(o.state, Reasoning))
  {
    NodesAreWorkflowShaped(env);
    PausedAfterThree(s, NodesOf(env));
    PausedWalkPayload(s, Lawyer, env, None);
  }

  /** The payload of a paused walk is the one the gatekeeper computes from the state it stopped with. */
  lemma {:induction false} PausedWalkPayload(s: State, n: Node, env: AgentNodes.Env, resume: Option<AgentNodes.ResumeValue>)
    ensures var o := Walk(s, n, NodesOf(env), resume);
            o.stop.Paused? ==> o.stop.payload == AgentNodes.Payload("approval_required", Get(o.state, Reasoning))
    decreases 5 - Rank(n)
  {
    var res := Execute(n, s, env, resume);
    if res.Emit? && Successor(n).Some? {
      PausedWalkPayload(Apply(s, res.update), Successor(n).value, env, None);
    }
  }

  /** A paused walk stopped because its last node suspended on the state it stopped with (re-entered with the
      resume value only when it was the first node run). */
  lemma {:induction false} PausedWalkSuspended(s: State, n: Node, run: Runner, resume: Option<AgentNodes.ResumeValue>)
    ensures var o := Walk(s, n, run, resume);
            o.stop.Paused? ==>
              run(o.stop.at, o.state, if o.trace == [] then resume else None) == AgentNodes.Suspend(o.stop.payload)
    decreases 5 - Rank(n)
  {
    var res := run(n, s, resume);
    if res.Emit? && Successor(n).Some? {
      PausedWalkSuspended(Apply(s, res.update), Successor(n).value, run, None);
    }
  }

  /** A gatekeeper that completes hands over to the scribe, whose result ends the walk. */
  lemma GatekeeperThenScribe(st: State, run: Runner, resume: Option<AgentNodes.ResumeValue>, u: Update)
    requires run(Gatekeeper, st, resume) == AgentNodes.Emit(u)
    ensures var s1 := Apply(st, u);
            var sc := run(Scribe, s1, None);
            Walk(st, Gatekeeper, run, resume)
              == if sc.Emit? then Outcome(Apply(s1, sc.update), [Gatekeeper, Scribe], Done)
                 else Outcome(s1, [Gatekeeper], Halt(Scribe, sc))
  {
    WalkContinues(st, Gatekeeper, run, resume, u);
    var s1 := Apply(st, u);
    var sc := run(Scribe, s1, None);
    if sc.Emit? {
      WalkContinues(s1, Scribe, run, None, sc.update);
    } else {
      WalkStops(s1, Scribe, run, None);
    }
  }

  /** Re-entering a gatekeeper that suspended, with the human's reply: the reply's status and feedback are
      stored, the scribe runs next and the walk cannot pause again; a REJECTED reply ends the run with no
      redline and the halt message appended. */
  lemma ResumedRun(st: State, env: AgentNodes.Env, v: AgentNodes.ResumeValue)
    requires AgentNodes.Gatekeeper(st, env.configuredLevel, None).Suspend?
    ensures var r := Walk(st, Gatekeeper, NodesOf(env), Some(v));
            && !r.stop.Paused?
            && r.trace == (if r.stop.Done? then [Gatekeeper, Scribe] else [Gatekeeper])
            && (r.stop.Failed? ==> r.stop.at == Scribe)
            && Get(r.state, HumanApprovalStatus) == AgentNodes.Lookup(v, "status")
            && Get(r.state, HumanFeedback) == AgentNodes.Lookup(v, "feedback")
            && st.messages <= r.state.messages
            && |r.state.messages| == |st.messages| + (if r.stop.Done? then 1 else 0)
            && (AgentNodes.Lookup(v, "status") == Str("REJECTED") ==>
                  && r.stop.Done?
                  && Get(r.state, ProposedRedline) == Null
                  && r.state.messages == st.messages + [Message("agent", AgentNodes.HaltMessage)])
  {
    AgentNodes.GatekeeperReentry(st, env.configuredLevel, v);
    var u := Update(map[HumanApprovalStatus := AgentNodes.Lookup(v, "status"),
                        HumanFeedback := AgentNodes.Lookup(v, "feedback")], []);
    GatekeeperThenScribe(st, NodesOf(env), Some(v), u);
    var s1 := Apply(st, u);
    if AgentNodes.Lookup(v, "status") == Str("REJECTED") {
      AgentNodes.ScribeRejected(s1, env);
    }
  }

  /** Resuming a walk of the workflow paused at the gatekeeper runs the gatekeeper again with the reply and
      then the scribe, as `ResumedRun` describes. */
  lemma ResumeAfterPause(s: State, env: AgentNodes.Env, v: AgentNodes.ResumeValue)
    requires Walk(s, Lawyer, NodesOf(env), None).stop.Paused?
    ensures AgentNodes.Gatekeeper(Walk(s, Lawyer, NodesOf(env), None).state, env.configuredLevel, None).Suspend?
  {
    PausedBeforeScribe(s, env);
    PausedWalkSuspended(s, Lawyer, NodesOf(env), None);
  }

  /** Five nodes that complete in a row finish the walk with their updates merged in order. */
  lemma WalkCompletes(s: State, run: Runner, us: seq<Update>)
    requires |us| == 5
    requires run(Lawyer, ApplyAll(s, us[..0]), None) == AgentNodes.Emit(us[0])
    requires run(Analyst, ApplyAll(s, us[..1]), None) == AgentNodes.Emit(us[1])
    requires run(Negotiator, ApplyAll(s, us[..2]), None) == AgentNodes.Emit(us[2])
    requires run(Gatekeeper, ApplyAll(s, us[..3]), None) == AgentNodes.Emit(us[3])
    requires run(Scribe, ApplyAll(s, us[..4]), None) == AgentNodes.Emit(us[4])
    ensures Walk(s, Lawyer, run, None) == Outcome(ApplyAll(s, us), [Lawyer, Analyst, Negotiator, Gatekeeper, Scribe], Done)
  {
    assert us[..0] == [];
    var s1 := ApplyAll(s, us[..1]);
    var s2 := ApplyAll(s, us[..2]);
    var s3 := ApplyAll(s, us[..3]);
    var s4 := ApplyAll(s, us[..4]);
    assert us[..1][..0] == [] && us[..2][..1] == us[..1] && us[..3][..2] == us[..2];
    assert us[..4][..3] == us[..3] && us[..5] == us && us[..][..4] == us[..4];
    assert run(Lawyer, s, None) == AgentNodes.Emit(us[0]);
    WalkContinues(s, Lawyer, run, None, us[0]);
    assert run(Analyst, s1, None) == AgentNodes.Emit(us[1]);
    WalkContinues(s1, Analyst, run, None, us[1]);
    assert run(Negotiator, s2, None) == AgentNodes.Emit(us[2]);
    WalkContinues(s2, Negotiator, run, None, us[2]);
    assert run(Gatekeeper, s3, None) == AgentNodes.Emit(us[3]);
    WalkContinues(s3, Gatekeeper, run, None, us[3]);
    assert run(Scribe, s4, None) == AgentNodes.Emit(us[4]);
    WalkContinues(s4, Scribe, run, None, us[4]);
  }

  /** What the lawyer stores in the integration test's run: the skipped analysis without a policy, otherwise the
      evaluator's result for the model's reply. */
  function AutonomousAnalysis(env: AgentNodes.Env): Value {
    if env.policy.None? then Analysis(Skipped(AgentNodes.NoPolicyReason))
    else Analysis(Evaluated(PolicyEngine.Evaluate(env.evaluationReply)))
  }

  /** The updates of the integration test's run, node by node. */
  function AutonomousUpdates(s: State, env: AgentNodes.Env): seq<Update>
    requires CurrentClauseText in s.values
    requires env.strategyReply.Success? && "reasoning" in env.strategyReply.value && env.draft.Success?
    requires env.riskProfile.Success?
  {
    var reasoning := env.strategyReply.value["reasoning"];
    [ AgentNodes.Lawyer(s, env).update,
      Update(map[RiskProfile := Profile(env.riskProfile.value)], []),
      Update(map[StrategyDecision := Str("COUNTER"), Reasoning := reasoning], []),
      Update(map[HumanApprovalStatus := Str("AUTO_APPROVED")], []),
      Update(map[ProposedRedline := Str(env.draft.value)],
             [Message("agent", AgentNodes.DraftMessage(Str("COUNTER"), env.draft.value, reasoning))]) ]
  }

  /** The first three nodes of the integration test's run complete with their updates. */
  lemma AutonomousHeadSteps(s: State, env: AgentNodes.Env)
    requires CurrentClauseText in s.values && SupplierId in s.values
    requires env.riskProfile.Success? && env.draft.Success? && env.strategyReply.Success?
    requires "decision" in env.strategyReply.value && "reasoning" in env.strategyReply.value
    requires env.strategyReply.value["decision"] == Str("COUNTER")
    ensures var us := AutonomousUpdates(s, env);
            && NodesOf(env)(Lawyer, ApplyAll(s, us[..0]), None) == AgentNodes.Emit(us[0])
            && NodesOf(env)(Analyst, ApplyAll(s, us[..1]), None) == AgentNodes.Emit(us[1])
            && NodesOf(env)(Negotiator, ApplyAll(s, us[..2]), None) == AgentNodes.Emit(us[2])
  {
    var us := AutonomousUpdates(s, env);
    assert us[..0] == [];
    ApplyAllPrefix(s, us, 0);
    ApplyAllPrefix(s, us, 1);
    var s1 := Apply(s, us[0]);
    var s2 := Apply(s1, us[1]);
    assert AgentNodes.Lawyer(s, env).Emit?;
    assert SupplierId in s1.values && CurrentClauseText in s1.values;
    assert AgentNodes.Analyst(s1, env) == AgentNodes.Emit(us[1]);
    assert CurrentClauseText in s2.values;
    assert AgentNodes.Negotiator(s2, env) == AgentNodes.Emit(us[2]);
  }

  /** From a state with an AUTONOMOUS level, a PENDING status, a COUNTER decision, the reasoning and the
      clause, the gatekeeper auto-approves and the scribe then drafts. */
  lemma AutoApproveThenDraft(t: State, env: AgentNodes.Env)
    requires AgencyLevel in t.values && t.values[AgencyLevel] == Str("AUTONOMOUS")
    requires Get(t, HumanApprovalStatus) == Str("PENDING")
    requires Get(t, StrategyDecision) == Str("COUNTER") && Reasoning in t.values && CurrentClauseText in t.values
    requires env.draft.Success?
    ensures var u := Update(map[HumanApprovalStatus := Str("AUTO_APPROVED")], []);
            && NodesOf(env)(Gatekeeper, t, None) == AgentNodes.Emit(u)
            && NodesOf(env)(Scribe, Apply(t, u), None)
               == AgentNodes.Emit(Update(map[ProposedRedline := Str(env.draft.value)],
                    [Message("agent", AgentNodes.DraftMessage(Str("COUNTER"), env.draft.value, t.values[Reasoning]))]))
  {
    AgentNodes.GatekeeperAutoApproves(t, env.configuredLevel, None);
    var u := Update(map[HumanApprovalStatus := Str("AUTO_APPROVED")], []);
    AgentNodes.ScribeDrafts(Apply(t, u), env);
  }

  /** The gatekeeper and the scribe of the integration test's run complete with their updates. */
  lemma AutonomousTailSteps(s: State, env: AgentNodes.Env)
    requires CurrentClauseText in s.values
    requires AgencyLevel in s.values && s.values[AgencyLevel] == Str("AUTONOMOUS")
    requires Get(s, HumanApprovalStatus) == Str("PENDING")
    requires env.riskProfile.Success? && env.draft.Success? && env.strategyReply.Success?
    requires "reasoning" in env.strategyReply.value
    ensures var us := AutonomousUpdates(s, env);
            && NodesOf(env)(Gatekeeper, ApplyAll(s, us[..3]), None) == AgentNodes.Emit(us[3])
            && NodesOf(env)(Scribe, ApplyAll(s, us[..4]), None) == AgentNodes.Emit(us[4])
  {
    var us := AutonomousUpdates(s, env);
    var head := us[..3];
    assert forall k :: 0 <= k < 3 ==> head[k] == us[k];
    UntouchedFieldSurvives(s, head, AgencyLevel);
    UntouchedFieldSurvives(s, head, HumanApprovalStatus);
    UntouchedFieldSurvives(s, head, CurrentClauseText);
    LastWriteWins(s, head, StrategyDecision, 2);
    LastWriteWins(s, head, Reasoning, 2);
    AutoApproveThenDraft(ApplyAll(s, head), env);
    ApplyAllPrefix(s, us, 3);
  }

  /** The end-to-end run of the integration test, for any reply with a COUNTER decision and any drafted text:
      a state with a clause, a supplier, an AUTONOMOUS level and a PENDING status passes every node without
      pausing, is auto-approved and ends with the drafted redline and its one message. The outcome does not
      depend on the setting, since the state carries the level. */
  lemma AutonomousEndToEnd(s: State, env: AgentNodes.Env)
    requires CurrentClauseText in s.values && SupplierId in s.values && s.messages == []
    requires AgencyLevel in s.values && s.values[AgencyLevel] == Str("AUTONOMOUS")
    requires Get(s, HumanApprovalStatus) == Str("PENDING")
    requires env.riskProfile.Success? && env.draft.Success? && env.strategyReply.Success?
    requires "decision" in env.strategyReply.value && "reasoning" in env.strategyReply.value
    requires env.strategyReply.value["decision"] == Str("COUNTER")
    ensures var o := Walk(s, Lawyer, NodesOf(env), None);
            && o.stop.Done?
            && o.trace == [Lawyer, Analyst, Negotiator, Gatekeeper, Scribe]
            && Get(o.state, PolicyAnalysis) == AutonomousAnalysis(env)
            && Get(o.state, RiskProfile) == Profile(env.riskProfile.value)
            && Get(o.state, StrategyDecision) == Str("COUNTER")
            && Get(o.state, Reasoning) == env.strategyReply.value["reasoning"]
            && Get(o.state, ProposedRedline) == Str(env.draft.value)
            && Get(o.state, HumanApprovalStatus) == Str("AUTO_APPROVED")
            && |o.state.messages| == 1
  {
    AutonomousHeadSteps(s, env);
    AutonomousTailSteps(s, env);
    WalkCompletes(s, NodesOf(env), AutonomousUpdates(s, env));
    AutonomousFinalState(s, env);
  }

  /** The state the integration test's run ends with. */
  lemma AutonomousFinalState(s: State, env: AgentNodes.Env)
    requires s.messages == [] && CurrentClauseText in s.values
    requires env.riskProfile.Success? && env.draft.Success? && env.strategyReply.Success?
    requires "reasoning" in env.strategyReply.value
    ensures var f := ApplyAll(s, AutonomousUpdates(s, env));
            && Get(f, PolicyAnalysis) == AutonomousAnalysis(env)
            && Get(f, RiskProfile) == Profile(env.riskProfile.value)
            && Get(f, StrategyDecision) == Str("COUNTER")
            && Get(f, Reasoning) == env.strategyReply.value["reasoning"]
            && Get(f, ProposedRedline) == Str(env.draft.value)
            && Get(f, HumanApprovalStatus) == Str("AUTO_APPROVED")
            && |f.messages| == 1
  {
    var us := AutonomousUpdates(s, env);
    LastWriteWins(s, us, PolicyAnalysis, 0);
    LastWriteWins(s, us, RiskProfile, 1);
    LastWriteWins(s, us, StrategyDecision, 2);
    LastWriteWins(s, us, Reasoning, 2);
    LastWriteWins(s, us, HumanApprovalStatus, 3);
    LastWriteWins(s, us, ProposedRedline, 4);
    ApplyAllMessages(s, us);
    assert us[..4][..3] == us[..3] && us[..3][..2] == us[..2] && us[..2][..1] == us[..1] && us[..1][..0] == [];
    assert AllMessages(us[..4]) == [] by {
      assert AllMessages(us[..1]) == [];
      assert AllMessages(us[..2]) == [];
      assert AllMessages(us[..3]) == [];
    }
    assert us[..5] == us && us[..5][..4] == us[..4];
  }

  // ---- The graph builder ----

  /** `StateGraph`: the nodes registered so far, the edges, and the entry point. */
  class StateGraph {
    var nodes: seq<string>
    var edges: set<(string, string)>
    var entry: Option<string>

    constructor ()
      ensures nodes == [] && edges == {} && entry == None
    {
      nodes, edges, entry := [], {}, None;
    }

    /** A name may be registered once, and END is reserved. */
    method AddNode(name: string)
      requires name !in nodes && name != End
      modifies this
      ensures nodes == old(nodes) + [name] && edges == old(edges) && entry == old(entry)
    {
      nodes := nodes + [name];
    }

    method AddEdge(from: string, to: string)
      modifies this
      ensures edges == old(edges) + {(from, to)} && nodes == old(nodes) && entry == old(entry)
    {
      edges := edges + {(from, to)};
    }

    method SetEntryPoint(name: string)
      modifies this
      ensures entry == Some(name) && nodes == old(nodes) && edges == old(edges)
    {
      entry := Some(name);
    }

    /** Compiling needs an entry point and edges between registered nodes (or into END). */
    predicate Compilable()
      reads this
    {
      && entry.Some? && entry.value in nodes
      && forall e :: e in edges ==> e.0 in nodes && (e.1 in nodes || e.1 == End)
    }

    /** `compile(checkpointer=MemorySaver())`: the structure is frozen and the checkpoint store starts empty. */
    method Compile() returns (g: CompiledGraph)
      requires Compilable()
      ensures fresh(g) && g.edges == edges && g.entry == entry.value && g.checkpoints == map[]
    {
      g := new CompiledGraph(edges, entry.value);
    }
  }

  /** A checkpoint: the state, the node to run next (None once finished), and the pending interrupt payload. */
  datatype Checkpoint = Checkpoint(state: State, next: Option<Node>, pending: Option<AgentNodes.Payload>)

  lemma UpdateSame<K, V>(m: map<K, V>, k: K)
    requires k in m
    ensures m[k := m[k]] == m
  {
  }

  lemma UpdateTwice<K, V>(m: map<K, V>, k: K, a: V, b: V)
    ensures m[k := a][k := b] == m[k := b]
  {
  }

  /** The checkpoint left when a walk stops. */
  function CheckpointOf(o: Outcome): (c: Checkpoint)
    ensures c.state == o.state
    ensures c.pending.Some? <==> o.stop.Paused?
    ensures c.next.None? <==> o.stop.Done?
  {
    match o.stop
    case Done => Checkpoint(o.state, None, None)
    case Paused(at, p) => Checkpoint(o.state, Some(at), Some(p))
    case Failed(at, _) => Checkpoint(o.state, Some(at), None)
  }

  /** The saved state of a thread, or the empty state for a new one. */
  function SavedState(checkpoints: map<string, Checkpoint>, thread: string): State {
    if thread in checkpoints then checkpoints[thread].state else Empty
  }

  /** Protocol misuse by the caller: a new run on a thread waiting for a decision, or a resume of a thread
      that is not waiting. Neither changes any checkpoint. */
  datatype ProtocolError = AlreadyPaused | NotPaused

  /** The thread has a checkpoint that waits for a human decision. */
  predicate IsPaused(checkpoints: map<string, Checkpoint>, thread: string) {
    thread in checkpoints && checkpoints[thread].pending.Some?
  }

  /** The compiled graph: frozen edges and entry point, and the per-thread checkpoint store. */
  class CompiledGraph {
    const edges: set<(string, string)>
    const entry: string
    var checkpoints: map<string, Checkpoint>

    constructor (edges: set<(string, string)>, entry: string)
      ensures this.edges == edges && this.entry == entry && checkpoints == map[]
    {
      this.edges, this.entry := edges, entry;
      checkpoints := map[];
    }

    /** The negotiation chain, and only paused checkpoints carry a payload, always at the gatekeeper. */
    predicate Valid()
      reads this
    {
      && edges == ChainEdges && entry == Name(Lawyer)
      && forall t :: t in checkpoints && checkpoints[t].pending.Some? ==> checkpoints[t].next == Some(Gatekeeper)
    }

    /** `invoke(input, thread_id)`: a thread waiting for a decision must be resumed instead; otherwise the input
        is merged into the thread's saved state (empty for a new thread) and the walk starts at the entry point. */
    method Invoke(thread: string, input: Update, env: AgentNodes.Env) returns (r: Result<Outcome, ProtocolError>)
      requires Valid()
      modifies this
      ensures Valid()
      ensures IsPaused(old(checkpoints), thread) ==> r == Failure(AlreadyPaused) && checkpoints == old(checkpoints)
      ensures !IsPaused(old(checkpoints), thread) ==>
                && r == Success(Walk(Apply(SavedState(old(checkpoints), thread), input), Lawyer, NodesOf(env), None))
                && checkpoints == old(checkpoints)[thread := CheckpointOf(r.value)]
    {
      if IsPaused(checkpoints, thread) {
        return Failure(AlreadyPaused);
      }
      var s := Apply(SavedState(checkpoints, thread), input);
      var start := NodeNamed(entry);
      assert start == Some(Lawyer);
      checkpoints := checkpoints[thread := Checkpoint(s, Some(Lawyer), None)];
      NodesAreWorkflowShaped(env);
      var out := RunFrom(thread, s, start.value, NodesOf(env), None);
      r := Success(out);
    }

    /** `get_state(thread_id)`: the thread's checkpoint, if it has run. */
    method Inspect(thread: string) returns (c: Option<Checkpoint>)
      ensures c.Some? <==> thread in checkpoints
      ensures c.Some? ==> c.value == checkpoints[thread]
    {
      c := if thread in checkpoints then Some(checkpoints[thread]) else None;
    }

    /** `invoke(Command(resume=value), thread_id)`: only a thread paused at an interrupt can be resumed; the
        paused node is run again with the value and the walk carries on from there. */
    method Resume(thread: string, value: AgentNodes.ResumeValue, env: AgentNodes.Env)
      returns (r: Result<Outcome, ProtocolError>)
      requires Valid()
      modifies this
      ensures Valid()
      ensures !IsPaused(old(checkpoints), thread) ==> r == Failure(NotPaused) && checkpoints == old(checkpoints)
      ensures IsPaused(old(checkpoints), thread) ==>
                && r == Success(Walk(old(checkpoints)[thread].state, Gatekeeper, NodesOf(env), Some(value)))
                && checkpoints == old(checkpoints)[thread := CheckpointOf(r.value)]
    {
      if !IsPaused(checkpoints, thread) {
        return Failure(NotPaused);
      }
      var saved := checkpoints[thread];
      checkpoints := checkpoints[thread := Checkpoint(saved.state, saved.next, None)];
      NodesAreWorkflowShaped(env);
      var out := RunFrom(thread, saved.state, saved.next.value, NodesOf(env), Some(value));
      r := Success(out);
    }

    /** The edge out of `cur`, looked up in the frozen edge set. */
    method EdgeFrom(cur: Node) returns (target: string)
      requires Valid()
      ensures (Name(cur), target) in edges
      ensures target == if Successor(cur).Some? then Name(Successor(cur).value) else End
    {
      ChainEdgesFollowSuccessor(cur, if Successor(cur).Some? then Name(Successor(cur).value) else End);
      target :| (Name(cur), target) in edges;
      ChainEdgesFollowSuccessor(cur, target);
    }

    /** One executor step: run the node, merge its update and write the checkpoint; report the outcome when
        the walk stops here, or the state and node it continues with. */
    method Step(thread: string, s: State, cur: Node, run: Runner, r: Option<AgentNodes.ResumeValue>)
      returns (stopped: Option<Outcome>, s': State, next: Node)
      requires Valid() && WorkflowShaped(run)
      modifies this
      ensures Valid()
      ensures stopped.Some? ==> stopped.value == Walk(s, cur, run, r)
                                && checkpoints == old(checkpoints)[thread := CheckpointOf(stopped.value)]
      ensures stopped.None? ==>
                && Successor(cur) == Some(next)
                && Continue([cur], Walk(s', next, run, None)) == Walk(s, cur, run, r)
                && checkpoints == old(checkpoints)[thread := Checkpoint(s', Some(next), None)]
    {
      s', next := s, cur;
      match run(cur, s, r) {
        case Fail(c) =>
          WalkStops(s, cur, run, r);
          stopped := Some(Outcome(s, [], Failed(cur, c)));
        case Suspend(p) =>
          assert cur == Gatekeeper;
          WalkStops(s, cur, run, r);
          stopped := Some(Outcome(s, [], Paused(cur, p)));
        case Emit(u) =>
          WalkContinues(s, cur, run, r, u);
          s' := Apply(s, u);
          var target := EdgeFrom(cur);
          if target == End {
            stopped := Some(Outcome(s', [cur], Done));
          } else {
            next := NodeNamed(target).value;
            stopped := None;
            checkpoints := checkpoints[thread := Checkpoint(s', Some(next), None)];
            return;
          }
      }
      checkpoints := checkpoints[thread := CheckpointOf(stopped.value)];
    }

    /** The executor loop: step from node to node until the walk stops. */
    method RunFrom(thread: string, s0: State, start: Node, run: Runner,
                   resume: Option<AgentNodes.ResumeValue>) returns (out: Outcome)
      requires Valid() && WorkflowShaped(run)
      requires thread in checkpoints && checkpoints[thread] == Checkpoint(s0, Some(start), None)
      modifies this
      ensures Valid()
      ensures out == Walk(s0, start, run, resume)
      ensures checkpoints == old(checkpoints)[thread := CheckpointOf(out)]
    {
      var s, cur, r := s0, start, resume;
      var trace: seq<Node> := [];
      UpdateSame(checkpoints, thread);
      while true
        invariant Valid()
        invariant Walk(s0, start, run, resume) == Continue(trace, Walk(s, cur, run, r))
        invariant checkpoints == old(checkpoints)[thread := Checkpoint(s, Some(cur), None)]
        decreases 5 - Rank(cur)
      {
        ghost var before := checkpoints;
        var stopped, s', next := Step(thread, s, cur, run, r);
        UpdateTwice(old(checkpoints), thread, before[thread], checkpoints[thread]);
        if stopped.Some? {
          out := Continue(trace, stopped.value);
          return;
        }
        ContinueCompose(trace, cur, Walk(s', next, run, None));
        trace := trace + [cur];
        s, cur, r := s', next, None;
      }
    }
  }

  /** `build_negotiation_graph`: five nodes, entry at the lawyer, the chain of edges, then compile. */
  method BuildNegotiationGraph() returns (g: CompiledGraph)
    ensures fresh(g) && g.Valid() && g.checkpoints == map[]
  {
    var workflow := new StateGraph();
    workflow.AddNode("lawyer");
    workflow.AddNode("analyst");
    workflow.AddNode("negotiator");
    workflow.AddNode("gatekeeper");
    workflow.AddNode("scribe");
    workflow.SetEntryPoint("lawyer");
    workflow.AddEdge("lawyer", "analyst");
    workflow.AddEdge("analyst", "negotiator");
    workflow.AddEdge("negotiator", "gatekeeper");
    workflow.AddEdge("gatekeeper", "scribe");
    workflow.AddEdge("scribe", End);
    g := workflow.Compile();
  }

  /** The walks behind a pause and its resume: the first stops at the gatekeeper after three nodes, the
      second takes the human's reply, does not pause again and keeps every earlier message. */
  lemma PauseThenResume(s0: State, env: AgentNodes.Env, v: AgentNodes.ResumeValue)
    requires Walk(s0, Lawyer, NodesOf(env), None).stop.Paused?
    ensures var o1 := Walk(s0, Lawyer, NodesOf(env), None);
            var o2 := Walk(o1.state, Gatekeeper, NodesOf(env), Some(v));
            && o1.stop.at == Gatekeeper && o1.trace == [Lawyer, Analyst, Negotiator]
            && !o2.stop.Paused?
            && Get(o2.state, HumanApprovalStatus) == AgentNodes.Lookup(v, "status")
            && Get(o2.state, HumanFeedback) == AgentNodes.Lookup(v, "feedback")
            && o1.state.messages <= o2.state.messages
  {
    var o1 := Walk(s0, Lawyer, NodesOf(env), None);
    PausedBeforeScribe(s0, env);
    ResumeAfterPause(s0, env, v);
    ResumedRun(o1.state, env, v);
  }

  /** The human-in-the-loop round trip on the compiled graph: a first run that reaches the gatekeeper under
      review pauses there; a second run on that thread is refused; the resume applies the human's reply once,
      finishes without pausing again and keeps every earlier message; a further resume is refused. */
  method PauseResumeRoundTrip(thread: string, input: Update, env: AgentNodes.Env, v: AgentNodes.ResumeValue)
    returns (first: Result<Outcome, ProtocolError>, rerun: Result<Outcome, ProtocolError>,
             resumed: Result<Outcome, ProtocolError>, again: Result<Outcome, ProtocolError>)
    requires Walk(Apply(Empty, input), Lawyer, NodesOf(env), None).stop.Paused?
    ensures first.Success? && first.value.stop.Paused? && first.value.stop.at == Gatekeeper
    ensures first.value.trace == [Lawyer, Analyst, Negotiator]
    ensures rerun == Failure(AlreadyPaused)
    ensures resumed.Success? && !resumed.value.stop.Paused?
    ensures Get(resumed.value.state, HumanApprovalStatus) == AgentNodes.Lookup(v, "status")
    ensures Get(resumed.value.state, HumanFeedback) == AgentNodes.Lookup(v, "feedback")
    ensures first.value.state.messages <= resumed.value.state.messages
    ensures again == Failure(NotPaused)
  {
    var g := BuildNegotiationGraph();
    PauseThenResume(Apply(Empty, input), env, v);
    first := g.Invoke(thread, input, env);
    rerun := g.Invoke(thread, input, env);
    resumed := g.Resume(thread, v, env);
    again := g.Resume(thread, v, env);
  }
}
