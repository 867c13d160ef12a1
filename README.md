# Negotiation workflow of the contract-negotiation backend, in Dafny

This project models the backend of an agentic contract negotiator. Its centre is the **negotiation workflow**: a
shared state record (`NegotiationState`) passed through five nodes in a fixed chain: lawyer (policy analysis),
analyst (supplier risk), negotiator (strategy), gatekeeper (human review) and scribe (drafting). The gatekeeper can
suspend the run for a human decision. A later resume re-enters it with the human's reply and continues to the
scribe.

The workflow library and its in-memory checkpointer are not part of this model. They are replaced by an explicit
executor: a `CompiledGraph` class that holds a map from thread id to checkpoint and has `Invoke`, `Resume` and
`Inspect` methods. Its loop is proved against a pure specification of the walk (`Walk`). Node bodies are pure
functions of the state. Database reads, model replies and the configured agency level are passed in as oracle
values (`AgentNodes.Env`). A node returns `Emit(update)`, `Suspend(payload)` or `Fail(cause)`.

Around the workflow the project models the smaller cores it relies on:

- the retrieval text splitter and chunk ingestion (`Rag`);
- the PDF upload validator (`PdfParser`);
- the request and response shaping of the three LLM clients (`Bedrock`, `OpenAiClient`, `MistralClient`, with
  the shared list shape in `LlmBase`) and provider selection (`LlmFactory`);
- the compliance evaluator's prompts and fail-safe (`PolicyEngine`);
- the supplier risk score (`SupplierIntelligence`) and the deterministic mock data provider (`SupplierMock`);
- the simulated supplier's prompt and message list (`SimulationAgent`).

`Text` and `Wrappers` are helper modules. `Text` holds the Python string operations used here: `startswith`,
`in`, `strip`, `join` and `lower`.

Modelling choices:

- A state key that is absent and a key that holds `None` are different, as in a Python dictionary. `Get` reads
  both as `Null`.
- Every field is overwritten by an update that carries it, except `messages`, which is appended to.
- In the model the workflow runs the gatekeeper with its agency level read lazily (see Findings).
- `Invoke` on a thread that waits for a decision is refused with `AlreadyPaused`. `Resume` on a thread that does
  not wait is refused with `NotPaused`. Neither changes any checkpoint.
- A node that raises stops the walk and leaves the checkpoint at that node, with the state as of the last
  completed node.
- The evaluator's JSON schema requires `status`, `score` and `reasoning`, but `EvaluationResult` also requires
  `flagged_issues`. So a reply that satisfies the schema but has no `flagged_issues` ends as the fail-safe
  `NEEDS_REVIEW` result (`PolicyEngine.SchemaConformingReplyWithoutIssuesFailsSafe`). The model keeps this
  behaviour as written.

## Model

| member | source | states |
|---|---|---|
| AgentState.Get | backend/app/agent/state.py:13-27 | an absent key reads as None, which is how readers treat fields that are not yet computed |
| AgentState.Apply | backend/app/agent/state.py:6-27 | merging appends the update's messages, overwrites exactly the keys the update carries and keeps every other key |
| AgentState.ApplyThen | backend/app/agent/state.py:6-27 | merging two updates one after the other equals merging their combination |
| AgentState.UpdateMonoid | backend/app/agent/state.py:17 | the empty update changes nothing, and combining updates is associative with the empty update as unit |
| AgentState.ApplyAllMessages | backend/app/agent/state.py:17 | after any sequence of merges, the messages are the initial list followed by each update's messages in merge order |
| AgentState.MessagesNeverShrink | backend/app/agent/state.py:17 | the message list never gets shorter, and the earlier list stays a prefix |
| AgentState.UntouchedFieldSurvives | backend/tests/integration/test_agent_graph.py:66-82 | a key that no update carries keeps its earlier value or stays absent |
| AgentState.LastWriteWins | backend/app/agent/state.py:7-27 | an overwrite field ends with the value from the last update that carries it |
| AgentNodes.Lawyer | backend/app/agent/nodes.py:20-41 | no policy gives the SKIPPED analysis; otherwise a missing clause raises, else the evaluator's result is stored; only `policy_analysis` is written |
| AgentNodes.Analyst | backend/app/agent/nodes.py:43-54 | succeeds if and only if the supplier id is present and the profile service answers; then stores exactly that profile |
| AgentNodes.Negotiator | backend/app/agent/nodes.py:56-100 | succeeds if and only if the clause is present and the model's reply has both keys; then stores its decision and reasoning |
| AgentNodes.Level | backend/app/agent/nodes.py:146 | the state's own level wins; the setting is used only when the state has no level, and a missing setting is then an error |
| AgentNodes.Gatekeeper | backend/app/agent/nodes.py:139-190 | fails only when neither the state nor the settings give a level; suspends only on first entry, with payload approval_required and the reasoning; never writes messages |
| AgentNodes.GatekeeperApproved | backend/app/agent/nodes.py:150-152 | entered with APPROVED it returns exactly `{human_approval_status: PROCESSED}` and does not suspend |
| AgentNodes.GatekeeperRejected | backend/app/agent/nodes.py:154-157 | entered with REJECTED it returns the empty update |
| AgentNodes.GatekeeperSuspends | backend/app/agent/nodes.py:160-182 | under STRICT or MEDIUM, with any other status, it suspends with `{type: approval_required, current_context: reasoning}` |
| AgentNodes.GatekeeperResumed | backend/app/agent/nodes.py:184-188 | re-entered with the reply, it stores the reply's status and feedback |
| AgentNodes.GatekeeperAutoApproves | backend/app/agent/nodes.py:172-190 | AUTONOMOUS or any unrecognised level never suspends and yields AUTO_APPROVED |
| AgentNodes.GatekeeperReentry | backend/app/agent/nodes.py:146-182 | re-entry decides the same way as the first entry; the reply matters only where the first entry suspended |
| AgentNodes.Scribe | backend/app/agent/nodes.py:102-134 | when it completes it writes exactly one agent message and only `proposed_redline` |
| AgentNodes.ScribeRejected | backend/app/agent/nodes.py:108-112 | a human rejection gives no redline and the halt message, whatever the decision |
| AgentNodes.ScribeNoRedline | backend/app/agent/nodes.py:114-119 | a decision other than COUNTER or REJECT gives no redline and one "Result" message |
| AgentNodes.ScribeDrafts | backend/app/agent/nodes.py:121-134 | with COUNTER or REJECT the drafted text becomes the redline and is quoted in the one message |
| AgentNodes.GatekeeperAsWrittenAlwaysFails | backend/app/agent/nodes.py:146 | as written, with no AGENCY_LEVEL setting declared, the gatekeeper raises on every call, even when the state carries a level |
| AgentNodes.GatekeeperCorrected | backend/app/agent/nodes.py:146 | the corrected gatekeeper answers whenever the state has a level, and agrees with the code as written whenever the setting exists |
| AgentNodes.UnitTestStates | backend/tests/unit/test_hitl.py:6-57 | the three unit-test states: AUTONOMOUS auto-approves; STRICT suspends, then takes the reply; STRICT with APPROVED gives PROCESSED |
| AgentGraph.NodeNamed | backend/app/agent/graph.py:13-17 | the five registered names identify the five nodes one to one |
| AgentGraph.Successor | backend/app/agent/graph.py:24-40 | every edge moves exactly one step along the chain |
| AgentGraph.ChainEdgesFollowSuccessor | backend/app/agent/graph.py:24-40 | each node has exactly one outgoing edge, to its successor, or to END after the scribe; there are no conditions |
| AgentGraph.Execute | backend/app/agent/graph.py:13-17 | only the gatekeeper can suspend; only the scribe writes messages, at most one |
| AgentGraph.NodesAreWorkflowShaped | backend/app/agent/nodes.py:102-190 | the workflow's nodes, whatever the state and oracles, suspend only at the gatekeeper and write messages only in the scribe |
| AgentGraph.WalkFollowsChain | backend/app/agent/graph.py:21-40 | nodes run in chain order, each at most once; a finished walk ran the whole chain from its start |
| AgentGraph.ChainFromEntry | backend/app/agent/graph.py:21-40 | from the entry the chain is lawyer, analyst, negotiator, gatekeeper, scribe |
| AgentGraph.PausesOnlyAtGatekeeper | backend/app/agent/nodes.py:178-182 | a paused walk is paused at the gatekeeper |
| AgentGraph.WalkMessages | backend/app/agent/state.py:17 | a walk appends exactly one message when it finishes and none otherwise, and keeps every earlier message |
| AgentGraph.PausedAfterThree | backend/app/agent/graph.py:21-40 | a paused walk from the entry has completed exactly lawyer, analyst and negotiator |
| AgentGraph.PausedBeforeScribe | backend/app/agent/graph.py:32-37 | a paused run of the workflow stops at the gatekeeper before the scribe; the payload carries the reasoning of the saved state |
| AgentGraph.PausedWalkPayload | backend/app/agent/nodes.py:182 | the payload of a paused walk is computed from the state it stopped with |
| AgentGraph.PausedWalkSuspended | backend/app/agent/nodes.py:178-188 | a paused walk stopped because its last node suspended on the saved state |
| AgentGraph.GatekeeperThenScribe | backend/app/agent/graph.py:32-37 | a gatekeeper that completes always hands over to the scribe, whatever the approval outcome |
| AgentGraph.ResumedRun | backend/app/agent/graph.py:32-40 | re-entering a suspended gatekeeper stores the reply, runs the scribe and cannot pause again; a REJECTED reply ends with no redline and the halt message |
| AgentGraph.ResumeAfterPause | backend/tests/unit/test_hitl.py:30-45 | the state saved at a pause makes the gatekeeper suspend again when re-entered without a reply, so a resume starts where the pause happened |
| AgentGraph.WalkCompletes | backend/app/agent/graph.py:21-40 | five completing nodes finish the walk with their updates merged in order |
| AgentGraph.AutonomousHeadSteps | backend/tests/integration/test_agent_graph.py:49-73 | in the integration run, lawyer, analyst and negotiator complete with their updates |
| AgentGraph.AutoApproveThenDraft | backend/tests/integration/test_agent_graph.py:53-82 | with AUTONOMOUS, PENDING and COUNTER, the gatekeeper auto-approves and the scribe drafts |
| AgentGraph.AutonomousTailSteps | backend/tests/integration/test_agent_graph.py:53-82 | in the integration run, gatekeeper and scribe complete with their updates |
| AgentGraph.AutonomousFinalState | backend/tests/integration/test_agent_graph.py:64-82 | the merged final state holds the lawyer's analysis, the analyst's profile, COUNTER, the reasoning, the drafted redline, AUTO_APPROVED and one message |
| AgentGraph.AutonomousEndToEnd | backend/tests/integration/test_agent_graph.py:49-82 | an AUTONOMOUS run passes all five nodes without pausing and ends with the lawyer's analysis, the analyst's profile, the decision, the reasoning, the redline, AUTO_APPROVED and one message |
| AgentGraph.CheckpointOf | backend/app/agent/graph.py:42-43 | a checkpoint carries a payload exactly when the walk paused, and no next node exactly when it finished |
| AgentGraph.StateGraph.AddNode | backend/app/agent/graph.py:13-17 | registers one new name and changes nothing else |
| AgentGraph.StateGraph.AddEdge | backend/app/agent/graph.py:24-40 | adds one edge and changes nothing else |
| AgentGraph.StateGraph.SetEntryPoint | backend/app/agent/graph.py:21 | sets the entry and changes nothing else |
| AgentGraph.StateGraph.Compile | backend/app/agent/graph.py:42-45 | freezes the edges and the entry into a new compiled graph whose checkpoint store is empty |
| AgentGraph.BuildNegotiationGraph | backend/app/agent/graph.py:6-45 | the built graph has the chain edges, entry at the lawyer and no checkpoints |
| AgentGraph.CompiledGraph.Invoke | backend/app/agent/graph.py:42-45 | a waiting thread is refused unchanged; otherwise the input merged into the thread's saved state is walked from the entry, and exactly that thread's checkpoint is replaced |
| AgentGraph.CompiledGraph.Resume | backend/app/agent/graph.py:42-45 | a thread that is not waiting is refused unchanged; otherwise the saved state is walked from the gatekeeper with the reply, and only that thread's checkpoint changes |
| AgentGraph.CompiledGraph.Inspect | backend/app/agent/graph.py:43 | returns the thread's checkpoint, or nothing for a thread that never ran |
| AgentGraph.CompiledGraph.RunFrom | backend/app/agent/graph.py:24-45 | the executor loop computes exactly the specified walk and leaves that walk's checkpoint |
| AgentGraph.CompiledGraph.Step | backend/app/agent/graph.py:24-40 | one node step either stops with the walk's outcome or continues at the successor with the merged state, checkpointing either way |
| AgentGraph.CompiledGraph.EdgeFrom | backend/app/agent/graph.py:24-40 | the edge found in the frozen edge set leads to the successor, or to END after the scribe |
| AgentGraph.PauseThenResume | backend/tests/unit/test_hitl.py:30-45 | a pause stops after three nodes; the resume takes the reply, does not pause again and keeps earlier messages |
| AgentGraph.PauseResumeRoundTrip | backend/app/agent/graph.py:42-48 | on the built graph: run pauses after three nodes, a second run is AlreadyPaused, the resume applies the reply once and does not pause again (the scribe may still fail), a second resume is NotPaused |
| Rag.Slice | backend/app/core/rag.py:45 | Python slicing cuts both bounds back to the text, so the slice is never longer than requested |
| Rag.SplitText | backend/app/core/rag.py:26-48 | the splitting loop produces exactly the specified windows |
| Rag.EmptyTextNoChunks | backend/app/core/rag.py:38-39 | empty text has no chunks |
| Rag.ChunkShape | backend/app/core/rag.py:42-47 | chunk k starts inside the text at k*step and is the slice of at most chunk_size characters from there |
| Rag.StartIsProduct | backend/app/core/rag.py:42-47 | the k-th start offset is k*(chunk_size-overlap) |
| Rag.CountBracket | backend/app/core/rag.py:43-47 | the chunks cover the text and the last one starts inside it, so their number is ceil(len/step) |
| Rag.CountFromBracket | backend/app/core/rag.py:43-47 | the ceiling count is the only count whose windows cover the text with the last one starting inside |
| Rag.LastChunkReachesEnd | backend/app/core/rag.py:43-47 | with non-negative overlap the last chunk ends at the end of the text |
| Rag.GlueChunks | backend/app/core/rag.py:41-48 | removing the overlaps and joining the chunks gives back the text |
| Rag.Rows | backend/app/core/rag.py:64-74 | row k carries chunk k, chunk_index k and the contract id |
| Rag.Session.Add | backend/app/core/rag.py:74 | stages one row and leaves committed rows alone |
| Rag.Session.Commit | backend/app/core/rag.py:82 | moves the staged rows, in order, after the committed ones |
| Rag.IngestContract | backend/app/core/rag.py:50-82 | succeeds if and only if every chunk embeds; then commits all rows indexed by position; otherwise stops at the first failure and commits nothing |
| PdfParser.Base | backend/app/contract/parser.py:13-23 | both specific errors derive from DocumentParsingError |
| PdfParser.EveryErrorIsDocumentParsingError | backend/app/contract/parser.py:13-23 | every parser error is caught by DocumentParsingError, and not the reverse |
| PdfParser.TextPages | backend/app/contract/parser.py:105-108 | keeps only non-empty pages; with no text-bearing page it keeps none |
| PdfParser.TextPagesKeepsText | backend/app/contract/parser.py:105-108 | every page with text is kept |
| PdfParser.TextPagesFromInput | backend/app/contract/parser.py:105-108 | every kept page is a non-empty input page |
| PdfParser.TextPagesIdempotent | backend/app/contract/parser.py:105-108 | filtering twice equals filtering once |
| PdfParser.Parse | backend/app/contract/parser.py:59-116 | size check first (over 10 MiB fails), then the %PDF signature, then reader failures, else the text pages joined by newlines |
| PdfParser.SizeLimitBoundary | backend/app/contract/parser.py:81-84 | exactly 10*1024*1024 bytes passes the size check; one byte more fails it |
| PdfParser.NoTextPagesParseEmpty | backend/app/contract/parser.py:105-116 | a document without text-bearing pages parses to the empty string |
| PdfParser.ParsedTextContainsPages | backend/app/contract/parser.py:105-116 | every page with text appears in the result |
| LlmBase.OrEmpty | backend/app/llm/bedrock.py:58 | `(s or "")` is the prompt when it is truthy and "" otherwise |
| LlmBase.ToWire | backend/app/llm/bedrock.py:22-24 | the converted list keeps order, roles and contents |
| LlmBase.WithSystemPromptShape | backend/app/llm/openai_client.py:23-28 | a system entry leads the list if and only if the prompt is truthy; the rest copies the messages; the length is len(messages) plus one if there is a prompt |
| Bedrock.RequestBody | backend/app/llm/bedrock.py:14-34 | the body keeps the messages and the constants, and has a `system` key if and only if the prompt is truthy |
| Bedrock.JsonSystemPrompt | backend/app/llm/bedrock.py:56-58 | the JSON prompt starts with `(system_prompt or "")`, embeds the schema and is never empty |
| Bedrock.JsonRequestBody | backend/app/llm/bedrock.py:56-60 | JSON mode sends temperature 0.1 and always a `system` key with the augmented prompt |
| Bedrock.CleanIsPieceOfStripped | backend/app/llm/bedrock.py:63-70 | the cleaned text is a contiguous piece of the stripped reply |
| Bedrock.CleanUnfenced | backend/app/llm/bedrock.py:64-70 | a reply without fences cleans to exactly its stripped form |
| Bedrock.CleanJsonFenced | backend/app/llm/bedrock.py:64-70 | a "```json" block cleans to its inside |
| Bedrock.CleanPlainFenced | backend/app/llm/bedrock.py:67-70 | a bare "```" block cleans to its inside |
| Bedrock.GenerateJson | backend/app/llm/bedrock.py:49-75 | provider errors propagate; cleaned text that does not parse is the invalid-JSON ValueError; otherwise the parse of the cleaned text |
| Bedrock.GenerateJsonFenced | backend/app/llm/bedrock.py:62-75 | a fenced JSON reply reaches the parser without its fences |
| OpenAiClient.ResponseRequest | backend/app/llm/openai_client.py:19-34 | text mode: gpt-4o, temperature 0.7, no response format, the formatted list |
| OpenAiClient.JsonRequest | backend/app/llm/openai_client.py:41-62 | JSON mode: the same list, temperature 0.2 and `json_object` |
| OpenAiClient.ReplyText | backend/app/llm/openai_client.py:36 | a None reply reads as "" |
| OpenAiClient.JsonReply | backend/app/llm/openai_client.py:64-65 | succeeds if and only if there is content and it parses; None content raises |
| MistralClient.ResponseRequest | backend/app/llm/mistral.py:15-34 | text mode passes the model id, the temperature (0.7 unless given) and the built list |
| MistralClient.DefaultResponseRequest | backend/app/llm/mistral.py:15-34 | a call without prompt or temperature sends temperature 0.7 and the messages with no system entry |
| MistralClient.JsonSystemPrompt | backend/app/llm/mistral.py:50-51 | the JSON prompt starts with `(system_prompt or "")`, embeds the schema and is truthy |
| MistralClient.JsonRequest | backend/app/llm/mistral.py:42-66 | JSON mode: temperature 0.1, `json_object`, the list built with the augmented prompt |
| MistralClient.JsonMessagesAlwaysHaveSystem | backend/app/llm/mistral.py:50-58 | in JSON mode the system entry is always first and the list has len(messages)+1 entries |
| LlmFactory.ClientFor | backend/app/llm/factory.py:9-29 | unset selects mock; aws, mistral and openai select their clients with the stated defaults; anything else selects mock |
| LlmFactory.ProviderCaseInsensitive | backend/app/llm/factory.py:11 | names that differ only in case select the same client |
| LlmFactory.ClientCache.GetLlmClient | backend/app/llm/factory.py:31-33 | the first call builds and caches a client; later calls return that same object |
| LlmFactory.RepeatedCallsShareClient | backend/app/llm/factory.py:31-33 | two calls return one and the same instance; on an empty cache it is built from the first call's environment |
| PolicyEngine.RuleParts | backend/app/policy/engine.py:45 | the rule names both the instruction to ignore overrides and "Prompt Injection" |
| PolicyEngine.SystemPromptHardened | backend/app/policy/engine.py:41-48 | the system prompt carries the anti-injection rule word for word |
| PolicyEngine.UserContentLayout | backend/app/policy/engine.py:51-56 | POLICY, CONTRACT SEGMENT and INSTRUCTION appear in that order, each with its text right after it |
| PolicyEngine.EvaluationRequest | backend/app/policy/engine.py:51-76 | exactly one user message holding the policy and contract texts, the hardened prompt and the schema |
| PolicyEngine.Validate | backend/app/policy/engine.py:10-14 | a reply becomes a result if and only if all four fields are present, and then field for field |
| PolicyEngine.FailSafe | backend/app/policy/engine.py:78-86 | NEEDS_REVIEW, score 0, ["System Error"], reasoning starting "Automated evaluation failed: " |
| PolicyEngine.Evaluate | backend/app/policy/engine.py:75-86 | never fails: a valid reply is returned as given, anything else gives the fail-safe result |
| PolicyEngine.SchemaConformingReplyWithoutIssuesFailsSafe | backend/app/policy/engine.py:63-77 | a schema-conforming reply without flagged_issues ends as the fail-safe result |
| SupplierIntelligence.AnalyzeSentimentAndRisk | backend/app/supplier/intelligence.py:55-63 | a model failure gives sentiment 0.0, "Automated analysis failed." and MONITOR; otherwise the reply |
| SupplierIntelligence.Duns | backend/app/supplier/intelligence.py:77 | the lei when non-empty, else "000000000" |
| SupplierIntelligence.Gather | backend/app/supplier/intelligence.py:77-82 | financials by DUNS, news by name, screening by name with country US |
| SupplierIntelligence.AdverseMediaCount | backend/app/supplier/intelligence.py:106 | at most the number of items, and zero exactly when no item is negative |
| SupplierIntelligence.AdverseMediaCountIsPositions | backend/app/supplier/intelligence.py:106 | the count equals the number of positions holding a negative item |
| SupplierIntelligence.AdverseMediaCountAppend | backend/app/supplier/intelligence.py:106 | counting distributes over concatenation |
| SupplierIntelligence.Clamp | backend/app/supplier/intelligence.py:126 | the result is within [0, 100] and equals the input inside that range |
| SupplierIntelligence.RiskScore | backend/app/supplier/intelligence.py:119-126 | the stored score is within [0, 100], and a sanctions flag forces 100 |
| SupplierIntelligence.BlendInRange | backend/app/supplier/intelligence.py:119-126 | for stress in 0..100 and sentiment in -1..1 the blend is already within [0, 100] |
| SupplierIntelligence.RiskFallsWithFinancialHealth | backend/app/supplier/intelligence.py:119-122 | a higher stress score never raises the risk |
| SupplierIntelligence.RiskFallsWithSentiment | backend/app/supplier/intelligence.py:120-122 | a better sentiment never raises the risk |
| SupplierIntelligence.Profile | backend/app/supplier/intelligence.py:92-107 | the profile's defaults (stress 0, credit N/A, no sanctions) and its adverse-media count |
| SupplierIntelligence.MissingStressDefaultsDisagree | backend/app/supplier/intelligence.py:97-119 | a missing stress score is stored as 0 but scored as 50 |
| SupplierIntelligence.UpdateSupplierRiskProfile | backend/app/supplier/intelligence.py:65-132 | an unknown supplier is a ValueError before any provider call; otherwise the built profile is returned and the score is stored, within [0, 100] |
| SupplierIntelligence.IntelligenceFlowScenario | backend/tests/unit/test_intelligence.py:11-48 | the unit-test data gives stress 20, sentiment -0.5, one adverse item and score 78 |
| SupplierIntelligence.MockHighRiskSupplier | backend/app/supplier/intelligence.py:77-126 | with the mock provider a "999" DUNS and a risky name give two adverse items, no sanctions and a score of at least 45 |
| SupplierMock.GetFinancialHealth | backend/app/supplier/adapters/mock.py:11-27 | "999" DUNS gives stress 25 (the later duplicate key), CC, High; any other gives 85, 5A1, Low |
| SupplierMock.GetMarketNews | backend/app/supplier/adapters/mock.py:29-41 | Risky or Volatile gives two negative items, checked before Green (two positive); any other name gives none |
| SupplierMock.CheckCompliance | backend/app/supplier/adapters/mock.py:43-53 | flagged with the OFAC list exactly for KP, RU, IR or a "Sanctioned" name; otherwise unflagged with no list match |
| SupplierMock.ScenarioNames | backend/tests/unit/test_supplier_adapter.py:5-31 | the test names and DUNS numbers fall into the intended scenarios |
| SimulationAgent.PathJoin | backend/app/simulation/agent.py:18 | `os.path.join`: an absolute part replaces the base; otherwise the result starts with the base and ends with the part, with one "/" between them unless the base is empty or already ends with "/" |
| SimulationAgent.LoadPersona | backend/app/simulation/agent.py:14-21 | the persona is found if and only if the joined path of "<id>.yaml" exists, and is then that file's persona; otherwise the not-found error names the id and the path |
| SimulationAgent.RelativePersonaUnderBase | backend/app/simulation/agent.py:17-21 | a relative id is looked up at base + "/" + id + ".yaml" |
| SimulationAgent.AbsolutePersonaIgnoresBase | backend/app/simulation/agent.py:18-21 | an absolute id, which the unchecked request body can carry, loads "<id>.yaml" whatever the base directory |
| SimulationAgent.Bullets | backend/app/simulation/agent.py:29-32 | one "- item" line per item, in order |
| SimulationAgent.PromptOpensWithName | backend/app/simulation/agent.py:24 | the prompt starts with "You are " and the persona's name |
| SimulationAgent.PromptLayout | backend/app/simulation/agent.py:23-40 | the goals block follows the opening, and the constraints block follows the goals |
| SimulationAgent.PromptListsGoal | backend/app/simulation/agent.py:28-29 | every goal appears as its own "- goal" line |
| SimulationAgent.PromptListsConstraint | backend/app/simulation/agent.py:31-32 | every constraint appears as its own "- constraint" line |
| SimulationAgent.PromptEmbedsPersona | backend/app/simulation/agent.py:24-26 | the prompt contains the persona's name, style and tone |
| SimulationAgent.RoleFor | backend/app/simulation/agent.py:52 | sender "supplier" speaks as assistant, every other sender as user |
| SimulationAgent.ReplyMessages | backend/app/simulation/agent.py:42-55 | system prompt, then the history in order with mapped roles, then the latest proposal; length len(history)+2; a missing key raises for the first bad entry |
| AgentGraph.Walk | backend/app/agent/graph.py:21-40 | a walk completes at most the nodes left in the chain, completes all of them exactly when it finishes, and a walk that completes no node leaves the state as it was |
| AgentNodes.LevelAsWritten | backend/app/agent/nodes.py:146 | as written the level is available exactly when the setting is declared, and the state's own level then wins |
| AgentNodes.GatekeeperAsWritten | backend/app/agent/nodes.py:139-190 | as written the gatekeeper raises exactly when the setting is not declared, whatever the state holds |
| Bedrock.DefaultRequestBody | backend/app/llm/bedrock.py:14-34 | a call without prompt or temperature sends temperature 0.7, no `system` key and the converted messages |
| Bedrock.JsonInstruction | backend/app/llm/bedrock.py:57 | the appended instruction embeds the schema and ends by demanding JSON only |
| Bedrock.CleanJsonText | backend/app/llm/bedrock.py:63-70 | the clean-up never makes the stripped reply longer |
| LlmBase.WithSystemPrompt | backend/app/llm/openai_client.py:23-28 | the list is one entry longer than the conversation exactly when the prompt is truthy, and is the converted conversation otherwise |
| LlmBase.BuildWireMessages | backend/app/llm/openai_client.py:23-28 | the append loop shared by the OpenAI client and the Mistral client (mistral.py:22-27) builds exactly the system entry (if truthy) followed by the messages |
| LlmFactory.ProviderName | backend/app/llm/factory.py:11 | an unset variable names the mock provider; otherwise the name has the variable's length and each character is that character of the value, ASCII-lower-cased |
| PolicyEngine.UserContent | backend/app/policy/engine.py:51-56 | the user message opens with the policy section and closes with the instruction |
| Rag.Chunks | backend/app/core/rag.py:26-48 | there are no chunks exactly when the text is empty, and no chunk is longer than chunk_size |
| SimulationAgent.BuildSystemPrompt | backend/app/simulation/agent.py:23-40 | the prompt closes with the fixed instructions |
| SupplierIntelligence.CombinedRisk | backend/app/supplier/intelligence.py:116-122 | a sanctions flag gives 100; full financial health with the best sentiment gives 0, the worst of both gives 100 |
| Text.Strip | backend/app/llm/bedrock.py:64 | stripping never lengthens a string, and a string it does not shorten is unchanged |
| Text.Join | backend/app/contract/parser.py:116 | the joined text is as long as the parts plus one separator between each neighbouring pair |
| Text.Lower | backend/app/llm/factory.py:11 | lower-casing keeps the length and maps each character on its own |

## Left out

- The workflow library and its checkpointer are replaced by the executor above. Checkpoint version counters,
  concurrent access to one thread and durable storage are not modelled.
- Conditional edges and their configuration error are not modelled: the graph has none.
- `AgentGraph.CompiledGraph.Invoke`: a run on a waiting thread is refused with AlreadyPaused. The library's own
  behaviour in that case is not visible, so the executor follows the suspend/resume protocol instead.
- Prompt wording of the strategy and drafting calls, and the JSON dumps of the context, are not modelled. The
  model replies are oracle values.
- `UUID(state["supplier_id"])` in the analyst: a malformed id is one of the profile service's failures.
- Embedding generation, the pgvector `search`, `json.loads`, pypdf page extraction and all SDK calls are foreign.
  Their results are inputs.
- `Rag.SplitText`: chunk_size is a natural number. Python's negative slice bounds, which a negative chunk size
  would reach, are not modelled. `overlap < chunk_size` is required because otherwise the loop never ends.
- `PdfParser.Parse`: the reader is given as the list of page texts or a failure. Logging of encrypted documents is
  not modelled.
- `MistralClient.ResponseRequest`: the reply content is returned as the SDK gives it. A None reply is not modelled.
- `AgentNodes.Show` renders an analysis or a profile as "{...}", not as Python's `str` of the dictionary, in the
  scribe's result message.
- `AgentNodes.Gatekeeper`: a resume value that is not a dictionary (where `.get` would raise) is not modelled;
  the reply is always a map.
- `AgentNodes.Lawyer`: a failure of the database query for the active policy is not modelled; the policy is an
  input that is either present or absent.
- `PolicyEngine.Validate`: the reply's fields arrive already typed (a string status, an integer score, a string
  reasoning, a list of string issues), so only a missing field is modelled. The per-field type checks and lax
  coercion of `EvaluationResult(**result_dict)` are not: in the source a score given as the string "85" is accepted
  as 85, and a score of 85.5 or "high", or a status, reasoning or issue that is not a string, fails validation and
  ends in the fail-safe result.
- `SupplierIntelligence.CombinedRisk`: a sentiment that is present but None or not a number raises TypeError in
  the source; the model reads a missing sentiment as 0 and has no way to express the other cases.
- `SupplierIntelligence.UpdateSupplierRiskProfile`: the profile's time-stamp, the session writes and the analyst's
  prompt text are not modelled. The score uses exact reals, so float rounding is not modelled.
- `Text.Lower`: only ASCII letters are mapped. Unicode case folding is not modelled.
- The persona YAML loader is replaced by a map from paths to parsed personas. The supplier-provider factory, the
  mock LLM client, the settings module, the HTTP layers, the ORM models and the frontend are not part of this
  model.
- async scheduling and logging are not modelled; every call runs sequentially.

## Findings

| source | as written | input that shows it | evidently intended | confidence | as-written member | corrected member |
|---|---|---|---|---|---|---|
| backend/app/agent/nodes.py:146 | `state.get("agency_level", settings.AGENCY_LEVEL)` evaluates the default before the lookup, and the settings class declares no AGENCY_LEVEL, so the attribute access raises | the unit-test state `{agency_level: "STRICT", human_approval_status: "", reasoning: "High stakes."}` | use the state's level and consult the setting only when the state has none | medium, not executed | AgentNodes.GatekeeperAsWrittenAlwaysFails | AgentNodes.GatekeeperCorrected |
