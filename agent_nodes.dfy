/** The five workflow nodes (backend/app/agent/nodes.py). Each reads the state and returns a partial update; the
    gatekeeper may instead suspend for a human decision. Database reads, model calls and the configured agency
    level are inputs gathered in an `Env`. */
module AgentNodes {
  import opened Wrappers
  import opened LlmBase
  import opened AgentState
  import PolicyEngine
  import SupplierIntelligence

  /** `{"type": "approval_required", "current_context": ...}`, the value handed to `interrupt`. */
  datatype Payload = Payload(kind: string, currentContext: Value)

  /** What running a node yields: a partial update, a suspension, or an exception. */
  datatype NodeResult = Emit(update: Update) | Suspend(payload: Payload) | Fail(cause: string)

  /** The results of the calls a node makes outside the state, and the configured agency level (None when
      the setting is not declared). */
  datatype Env = Env(
    policy: Option<PolicyEngine.Policy>,
    evaluationReply: Result<PolicyEngine.RawEvaluation, string>,
    riskProfile: Result<SupplierIntelligence.RiskProfile, string>,
    strategyReply: Result<map<string, Value>, string>,
    draft: Result<string, string>,
    configuredLevel: Option<string>)

  /** The human's reply, as a dictionary. */
  type ResumeValue = map<string, Value>

  function KeyError(key: string): string {
    "KeyError: '" + key + "'"
  }

  const SettingMissing := "AttributeError: 'Settings' object has no attribute 'AGENCY_LEVEL'"
  const NoPolicyReason := "No active policy found"
  const HaltMessage := "Process halted: Strategy rejected by user."

  /** `str(v)` inside an f-string, for the values these nodes print. */
  function Show(v: Value): string {
    match v
    case Str(t) => t
    case Null => "None"
    case Analysis(_) => "{...}"
    case Profile(_) => "{...}"
  }

  /** `d.get(key)` on a dictionary of values. */
  function Lookup(d: map<string, Value>, key: string): Value {
    if key in d then d[key] else Null
  }

  /** The lawyer (`policy_analysis_node`): without a policy the analysis is skipped; otherwise the clause, which
      must be present, is evaluated, and the evaluator's result (fail-safe included) is stored. */
  function Lawyer(s: State, env: Env): (r: NodeResult)
    ensures r.Emit? ==> r.update.messages == [] && r.update.writes.Keys == {PolicyAnalysis}
    ensures env.policy.None? ==> r == Emit(Update(map[PolicyAnalysis := Analysis(Skipped(NoPolicyReason))], []))
    ensures env.policy.Some? ==> (r.Fail? <==> CurrentClauseText !in s.values)
    ensures env.policy.Some? && r.Emit? ==>
              r.update.writes[PolicyAnalysis] == Analysis(Evaluated(PolicyEngine.Evaluate(env.evaluationReply)))
  {
    if env.policy.None? then
      Emit(Update(map[PolicyAnalysis := Analysis(Skipped(NoPolicyReason))], []))
    else if CurrentClauseText !in s.values then
      Fail(KeyError("current_clause_text"))
    else
      Emit(Update(map[PolicyAnalysis := Analysis(Evaluated(PolicyEngine.Evaluate(env.evaluationReply)))], []))
  }

  /** The analyst (`risk_analysis_node`): the supplier id must be present; the refreshed profile is stored, and
      a failure of the profile service propagates. */
  function Analyst(s: State, env: Env): (r: NodeResult)
    ensures r.Emit? <==> SupplierId in s.values && env.riskProfile.Success?
    ensures r.Emit? ==> r.update == Update(map[RiskProfile := Profile(env.riskProfile.value)], [])
    ensures !r.Emit? ==> r.Fail?
  {
    if SupplierId !in s.values then Fail(KeyError("supplier_id"))
    else match env.riskProfile
      case Failure(e) => Fail(e)
      case Success(p) => Emit(Update(map[RiskProfile := Profile(p)], []))
  }

  /** The negotiator (`strategy_node`): reads the clause, asks the model, and stores its decision and reasoning;
      a missing clause, a failed call or a reply without either key is an exception. */
  function Negotiator(s: State, env: Env): (r: NodeResult)
    ensures r.Emit? <==> CurrentClauseText in s.values && env.strategyReply.Success?
                         && "decision" in env.strategyReply.value && "reasoning" in env.strategyReply.value
    ensures r.Emit? ==>
              r.update == Update(map[StrategyDecision := env.strategyReply.value["decision"],
                                     Reasoning := env.strategyReply.value["reasoning"]], [])
    ensures !r.Emit? ==> r.Fail?
  {
    if CurrentClauseText !in s.values then Fail(KeyError("current_clause_text"))
    else match env.strategyReply
      case Failure(e) => Fail(e)
      case Success(reply) =>
        if "decision" !in reply then Fail(KeyError("decision"))
        else if "reasoning" !in reply then Fail(KeyError("reasoning"))
        else Emit(Update(map[StrategyDecision := reply["decision"], Reasoning := reply["reasoning"]], []))
  }

  /** The level as the source computes it: `state.get("agency_level", settings.AGENCY_LEVEL)` evaluates the
      default first, so an undeclared setting is an exception even when the state carries a level. */
  function LevelAsWritten(s: State, configuredLevel: Option<string>): (r: Result<Value, string>)
    ensures r.Success? <==> configuredLevel.Some?
    ensures r.Success? && AgencyLevel in s.values ==> r.value == s.values[AgencyLevel]
  {
    if configuredLevel.None? then Failure(SettingMissing)
    else if AgencyLevel in s.values then Success(s.values[AgencyLevel])
    else Success(Str(configuredLevel.value))
  }

  /** The level as evidently intended: the setting is consulted only when the state has no level. */
  function Level(s: State, configuredLevel: Option<string>): (r: Result<Value, string>)
    ensures AgencyLevel in s.values ==> r == Success(s.values[AgencyLevel])
    ensures AgencyLevel !in s.values ==> (r.Success? <==> configuredLevel.Some?)
  {
    if AgencyLevel in s.values then Success(s.values[AgencyLevel])
    else if configuredLevel.None? then Failure(SettingMissing)
    else Success(Str(configuredLevel.value))
  }

  predicate NeedsReview(level: Value) {
    level == Str("STRICT") || level == Str("MEDIUM")
  }

  /** `human_approval_status`, read with an empty-string default. */
  function Status(s: State): Value {
    if HumanApprovalStatus in s.values then s.values[HumanApprovalStatus] else Str("")
  }

  /** The gatekeeper's decision once the level is known. `resume` is what `interrupt` returns when the node is
      re-entered after a suspension; on first entry there is none and the node suspends. */
  function GatekeeperAt(s: State, level: Value, resume: Option<ResumeValue>): NodeResult {
    if Status(s) == Str("APPROVED") then Emit(Update(map[HumanApprovalStatus := Str("PROCESSED")], []))
    else if Status(s) == Str("REJECTED") then Emit(NoChange)
    else if NeedsReview(level) then
      match resume
      case None => Suspend(Payload("approval_required", Get(s, Reasoning)))
      case Some(v) => Emit(Update(map[HumanApprovalStatus := Lookup(v, "status"),
                                      HumanFeedback := Lookup(v, "feedback")], []))
    else Emit(Update(map[HumanApprovalStatus := Str("AUTO_APPROVED")], []))
  }

  /** `human_review_gatekeeper` as written. */
  function GatekeeperAsWritten(s: State, configuredLevel: Option<string>, resume: Option<ResumeValue>): (r: NodeResult)
    ensures r.Fail? <==> configuredLevel.None?
  {
    match LevelAsWritten(s, configuredLevel)
    case Failure(e) => Fail(e)
    case Success(level) => GatekeeperAt(s, level, resume)
  }

  /** `human_review_gatekeeper` with the level read lazily; this is the one the workflow runs. */
  function Gatekeeper(s: State, configuredLevel: Option<string>, resume: Option<ResumeValue>): (r: NodeResult)
    ensures r.Fail? <==> AgencyLevel !in s.values && configuredLevel.None?
    ensures r.Suspend? ==> resume.None? && r.payload == Payload("approval_required", Get(s, Reasoning))
    ensures r.Emit? ==> r.update.messages == []
  {
    match Level(s, configuredLevel)
    case Failure(e) => Fail(e)
    case Success(level) => GatekeeperAt(s, level, resume)
  }

  /** The scribe (`drafting_node`): a human rejection halts first; a decision other than COUNTER or REJECT
      reports the result; otherwise the clause and reasoning must be present and the drafted text is proposed. */
  function Scribe(s: State, env: Env): (r: NodeResult)
    ensures r.Emit? ==> |r.update.messages| == 1 && r.update.messages[0].role == "agent"
                        && r.update.writes.Keys == {ProposedRedline}
  {
    if Get(s, HumanApprovalStatus) == Str("REJECTED") then
      Emit(Update(map[ProposedRedline := Null], [Message("agent", HaltMessage)]))
    else
      var decision := Get(s, StrategyDecision);
      if decision != Str("COUNTER") && decision != Str("REJECT") then
        Emit(Update(map[ProposedRedline := Null],
                    [Message("agent", "Result: " + Show(decision) + "\nReasoning: " + Show(Get(s, Reasoning)))]))
      else if CurrentClauseText !in s.values then Fail(KeyError("current_clause_text"))
      else if Reasoning !in s.values then Fail(KeyError("reasoning"))
      else match env.draft
        case Failure(e) => Fail(e)
        case Success(text) =>
          Emit(Update(map[ProposedRedline := Str(text)],
                      [Message("agent", DraftMessage(decision, text, s.values[Reasoning]))]))
  }

  function DraftMessage(decision: Value, text: string, reasoning: Value): string {
    "Proposed Redline (" + Show(decision) + "):\n" + text + "\n\nReasoning: " + Show(reasoning)
  }

  // ---- Decision tables ----

  /** Entered with APPROVED, the gatekeeper passes through with exactly PROCESSED and never suspends. */
  lemma GatekeeperApproved(s: State, configuredLevel: Option<string>, resume: Option<ResumeValue>)
    requires Level(s, configuredLevel).Success?
    requires Get(s, HumanApprovalStatus) == Str("APPROVED")
    ensures Gatekeeper(s, configuredLevel, resume) == Emit(Update(map[HumanApprovalStatus := Str("PROCESSED")], []))
  {
  }

  /** Entered with REJECTED, the gatekeeper returns an empty update. */
  lemma GatekeeperRejected(s: State, configuredLevel: Option<string>, resume: Option<ResumeValue>)
    requires Level(s, configuredLevel).Success?
    requires Get(s, HumanApprovalStatus) == Str("REJECTED")
    ensures Gatekeeper(s, configuredLevel, resume) == Emit(NoChange)
  {
  }

  /** Under STRICT or MEDIUM, any other status suspends with the reasoning as context. */
  lemma GatekeeperSuspends(s: State, configuredLevel: Option<string>)
    requires Level(s, configuredLevel).Success? && NeedsReview(Level(s, configuredLevel).value)
    requires Status(s) != Str("APPROVED") && Status(s) != Str("REJECTED")
    ensures Gatekeeper(s, configuredLevel, None) == Suspend(Payload("approval_required", Get(s, Reasoning)))
  {
  }

  /** Re-entered with the human's reply, the gatekeeper stores its status and feedback. */
  lemma GatekeeperResumed(s: State, configuredLevel: Option<string>, v: ResumeValue)
    requires Level(s, configuredLevel).Success? && NeedsReview(Level(s, configuredLevel).value)
    requires Status(s) != Str("APPROVED") && Status(s) != Str("REJECTED")
    ensures Gatekeeper(s, configuredLevel, Some(v))
            == Emit(Update(map[HumanApprovalStatus := Lookup(v, "status"), HumanFeedback := Lookup(v, "feedback")], []))
  {
  }

  /** Any level other than STRICT or MEDIUM (AUTONOMOUS or unrecognised) auto-approves and never suspends. */
  lemma GatekeeperAutoApproves(s: State, configuredLevel: Option<string>, resume: Option<ResumeValue>)
    requires Level(s, configuredLevel).Success? && !NeedsReview(Level(s, configuredLevel).value)
    requires Status(s) != Str("APPROVED") && Status(s) != Str("REJECTED")
    ensures Gatekeeper(s, configuredLevel, resume) == Emit(Update(map[HumanApprovalStatus := Str("AUTO_APPROVED")], []))
  {
  }

  /** Everything before `interrupt` only reads the state: re-entering the node decides the same way, and the
      reply matters only when the first entry suspended. */
  lemma GatekeeperReentry(s: State, configuredLevel: Option<string>, v: ResumeValue)
    ensures Gatekeeper(s, configuredLevel, None).Suspend? ==>
              Gatekeeper(s, configuredLevel, Some(v))
              == Emit(Update(map[HumanApprovalStatus := Lookup(v, "status"), HumanFeedback := Lookup(v, "feedback")], []))
    ensures !Gatekeeper(s, configuredLevel, None).Suspend? ==>
              Gatekeeper(s, configuredLevel, Some(v)) == Gatekeeper(s, configuredLevel, None)
  {
  }

  /** A human rejection halts the scribe with one message and no redline, whatever the decision. */
  lemma ScribeRejected(s: State, env: Env)
    requires Get(s, HumanApprovalStatus) == Str("REJECTED")
    ensures Scribe(s, env) == Emit(Update(map[ProposedRedline := Null], [Message("agent", HaltMessage)]))
  {
  }

  /** A decision other than COUNTER or REJECT yields no redline and one result message. */
  lemma ScribeNoRedline(s: State, env: Env)
    requires Get(s, HumanApprovalStatus) != Str("REJECTED")
    requires Get(s, StrategyDecision) != Str("COUNTER") && Get(s, StrategyDecision) != Str("REJECT")
    ensures Scribe(s, env).Emit? && Scribe(s, env).update.writes == map[ProposedRedline := Null]
    ensures Scribe(s, env).update.messages
            == [Message("agent", "Result: " + Show(Get(s, StrategyDecision)) + "\nReasoning: " + Show(Get(s, Reasoning)))]
  {
  }

  /** With COUNTER or REJECT, the drafted text becomes the redline and is quoted in the one message. */
  lemma ScribeDrafts(s: State, env: Env)
    requires Get(s, HumanApprovalStatus) != Str("REJECTED")
    requires Get(s, StrategyDecision) == Str("COUNTER") || Get(s, StrategyDecision) == Str("REJECT")
    requires CurrentClauseText in s.values && Reasoning in s.values && env.draft.Success?
    ensures Scribe(s, env) == Emit(Update(map[ProposedRedline := Str(env.draft.value)],
              [Message("agent", DraftMessage(Get(s, StrategyDecision), env.draft.value, s.values[Reasoning]))]))
  {
  }

  // ---- The gatekeeper's level read, as written and corrected ----

  /** With the settings as declared (no AGENCY_LEVEL), the gatekeeper as written raises on every call, even
      for a state that carries its own level, such as the unit tests' states. */
  lemma GatekeeperAsWrittenAlwaysFails(s: State, resume: Option<ResumeValue>)
    ensures GatekeeperAsWritten(s, None, resume) == Fail(SettingMissing)
  {
  }

  /** The corrected gatekeeper answers whenever the state carries a level, and agrees with the code as written
      whenever the setting exists. */
  lemma GatekeeperCorrected(s: State, configuredLevel: Option<string>, resume: Option<ResumeValue>)
    ensures AgencyLevel in s.values ==> !Gatekeeper(s, configuredLevel, resume).Fail?
    ensures configuredLevel.Some? ==>
              Gatekeeper(s, configuredLevel, resume) == GatekeeperAsWritten(s, configuredLevel, resume)
  {
  }

  /** The unit tests' three states: AUTONOMOUS auto-approves, STRICT suspends and then takes the reply,
      STRICT with APPROVED passes through. */
  lemma UnitTestStates(configuredLevel: Option<string>)
    ensures var s := State(map[AgencyLevel := Str("AUTONOMOUS"), HumanApprovalStatus := Str(""),
                               Reasoning := Str("Standard stuff.")], []);
            Gatekeeper(s, configuredLevel, None) == Emit(Update(map[HumanApprovalStatus := Str("AUTO_APPROVED")], []))
    ensures var s := State(map[AgencyLevel := Str("STRICT"), HumanApprovalStatus := Str(""),
                               Reasoning := Str("High stakes.")], []);
            var v := map["status" := Str("APPROVED"), "feedback" := Str("Good job.")];
            && Gatekeeper(s, configuredLevel, None) == Suspend(Payload("approval_required", Str("High stakes.")))
            && Gatekeeper(s, configuredLevel, Some(v))
               == Emit(Update(map[HumanApprovalStatus := Str("APPROVED"), HumanFeedback := Str("Good job.")], []))
    ensures var s := State(map[AgencyLevel := Str("STRICT"), HumanApprovalStatus := Str("APPROVED"),
                               Reasoning := Str("Checked.")], []);
            Gatekeeper(s, configuredLevel, None) == Emit(Update(map[HumanApprovalStatus := Str("PROCESSED")], []))
  {
    var v := map["status" := Str("APPROVED"), "feedback" := Str("Good job.")];
    assert Lookup(v, "status") == Str("APPROVED");
    assert Lookup(v, "feedback") == Str("Good job.");
  }
}
