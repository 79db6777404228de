/**
 * The workflow agent node itself (class AgentNode in
 * src/backend/bisheng/workflow/nodes/agent/agent.py): its configuration,
 * the mutable state it keeps between runs (executor type, memoized agent,
 * the three audit lists), and the imperative `_init_agent`,
 * `_init_knowledge_tools`, `_run_once` and `_run`, each proved against the
 * specification functions of AgentSpec and of this module.
 */
module AgentNode {
  import opened Wrappers
  import opened PyValues
  import opened AgentTypes
  import opened Retrieval
  import opened AgentSpec

  /** The node's `node_params` / `node_data` as far as the node reads them. */
  datatype NodeParams = NodeParams(
    tab: string,                   // node_data.tab['value']: 'single' or batch
    systemTemplate: string,        // system_prompt
    userTemplate: string,          // user_prompt
    chatHistoryFlag: bool,         // chat_history_flag['flag']
    chatHistoryNum: nat,           // chat_history_flag['value']
    modelId: string,               // model_id
    temperature: Option<real>,     // temperature, when present
    outputUser: Option<bool>,      // output_user, when present
    toolList: seq<Value>,          // the 'key' of each entry of tool_list
    knowledgeType: string,         // knowledge_id['type']
    knowledgeKeys: seq<string>,    // the 'key' of each entry of knowledge_id['value']
    batchVariable: seq<string>,    // batch_variable
    outputKeys: seq<string>)       // the 'key' of each entry of output

  /** The collaborators the node calls, as functions and tables. */
  datatype Env = Env(
    extract: string -> seq<string>,                     // PromptTemplateParser(t).extract()
    format: (string, map<string, Value>) -> string,     // PromptTemplateParser(t).format(m)
    assistantLlms: seq<AssistantLlm>,                   // LLMService.get_assistant_llm().llm_list
    initToolsById: (seq<int>, Llm) -> seq<Tool>,        // AssistantAgent.init_tools_by_toolid
    loadTools: (RagToolSpec, Llm) -> seq<Tool>,         // load_tools
    knowledgeDb: map<string, Knowledge>,                // KnowledgeDao.query_by_id
    decideEmbeddings: string -> Embedding,              // decide_embeddings
    defaultEmbedding: Option<Embedding>,                // LLMService.get_knowledge_default_embedding()
    history: (seq<Message>, nat) -> seq<Message>,       // graph_state.get_history_list(n)
    invoke: (Agent, Invocation) -> Option<seq<Message>>) // agent.invoke; None when it raises

  /** What `__init__` derives once and never changes. */
  datatype NodeConfig = NodeConfig(
    id: string, workflowId: string, tmpCollectionName: string,
    params: NodeParams, env: Env,
    systemVariables: seq<string>, userVariables: seq<string>,
    llm: Llm, outputUser: bool)

  const DefaultTemperature: real := 0.3
  const InitialExecutorType: string := "get_react_agent_executor"

  /** The configuration `__init__` derives from the node parameters. */
  function NewConfig(id: string, workflowId: string, tmpCollectionName: string, p: NodeParams, env: Env): NodeConfig {
    NodeConfig(id, workflowId, tmpCollectionName, p, env,
               env.extract(p.systemTemplate), env.extract(p.userTemplate),
               Llm(p.modelId, if p.temperature.Some? then p.temperature.value else DefaultTemperature),
               p.outputUser.Some? && p.outputUser.value)
  }

  /** `f'{self.id}.batch_variable'`. */
  function Sentinel(cfg: NodeConfig): string {
    cfg.id + ".batch_variable"
  }

  function StoreCtx(cfg: NodeConfig, vars: map<string, Value>): StoreContext {
    StoreContext(cfg.env.knowledgeDb, cfg.env.decideEmbeddings, cfg.env.defaultEmbedding,
                 vars, cfg.workflowId, cfg.tmpCollectionName)
  }

  /** What every `_run_once` of one `_run` reads. */
  function OnceContext(cfg: NodeConfig, vars: map<string, Value>, saved: seq<Message>,
                       executorType: string, agent: Agent): OnceCtx {
    OnceCtx(vars, Sentinel(cfg), cfg.systemVariables, cfg.userVariables,
            cfg.params.userTemplate, cfg.env.format,
            HistoryFor(cfg.params.chatHistoryFlag, cfg.params.chatHistoryNum, cfg.env.history, saved),
            executorType, agent, cfg.env.invoke)
  }

  /** The node's mutable state plus the chat turns saved in the workflow state. */
  datatype NodeState = NodeState(
    executorType: string, agent: Option<Agent>,
    batchValues: seq<Value>, systemPrompts: seq<string>, userPrompts: seq<string>,
    saved: seq<Message>)

  /**
   * `_init_agent`: the new executor type, the agent and the error raised.
   * A node that has an agent keeps it; otherwise the model lookup comes
   * first, and only after it succeeds are the executor type set and the
   * tools built.
   */
  function InitAgentSpec(cfg: NodeConfig, vars: map<string, Value>, executorType: string,
                         agent: Option<Agent>, systemPrompt: string)
    : (r: (string, Option<Agent>, Option<Error>))
    ensures agent.Some? ==> r == (executorType, agent, None)
    ensures r.2.None? <==> r.1.Some?
    ensures agent.None? && SelectModel(cfg.env.assistantLlms, cfg.params.modelId).Err? ==>
              r == (executorType, None, Some(SelectModel(cfg.env.assistantLlms, cfg.params.modelId).error))
    ensures agent.None? && SelectModel(cfg.env.assistantLlms, cfg.params.modelId).Ok? ==>
              var a := SelectModel(cfg.env.assistantLlms, cfg.params.modelId).value;
              var tools := AssembleTools(cfg.params.toolList, cfg.env.initToolsById,
                                         cfg.params.knowledgeType, cfg.params.knowledgeKeys,
                                         StoreCtx(cfg, vars), cfg.llm, RetrieverOf(a), cfg.env.loadTools);
              r.0 == a.agentExecutorType &&
              (tools.Err? ==> r.1.None? && r.2 == Some(tools.error)) &&
              (tools.Ok? ==> r.1 == Some(Agent(ExecutorName(a.agentExecutorType), tools.value, cfg.llm, systemPrompt)))
  {
    if agent.Some? then (executorType, agent, None)
    else
      match SelectModel(cfg.env.assistantLlms, cfg.params.modelId)
      case Err(e) => (executorType, None, Some(e))
      case Ok(a) =>
        match AssembleTools(cfg.params.toolList, cfg.env.initToolsById,
                            cfg.params.knowledgeType, cfg.params.knowledgeKeys,
                            StoreCtx(cfg, vars), cfg.llm, RetrieverOf(a), cfg.env.loadTools)
        case Err(e) => (a.agentExecutorType, None, Some(e))
        case Ok(tools) => (a.agentExecutorType, Some(Agent(ExecutorName(a.agentExecutorType), tools, cfg.llm, systemPrompt)), None)
  }

  /** The outputs of one `_run`: a single call under 'output', or one call per batch item. */
  function Outputs(cfg: NodeConfig, c: OnceCtx): Fanout {
    if cfg.params.tab == "single" then SingleRun(c)
    else BatchRun(c, cfg.params.batchVariable, cfg.params.outputKeys)
  }

  /**
   * `_run`: the audit lists are cleared; the system prompt is rendered and
   * logged; the agent is built if needed; the outputs are computed; and,
   * when the node outputs to the user and nothing failed, each result is
   * saved as an AI turn.
   */
  function RunSpec(cfg: NodeConfig, vars: map<string, Value>, st: NodeState)
    : (r: (NodeState, Result<ResultDict, Error>))
  {
    var cleared := st.(batchValues := [], systemPrompts := [], userPrompts := []);
    match Resolve(vars, cfg.systemVariables, Sentinel(cfg), None)
    case Err(e) => (cleared, Err(e))
    case Ok(m) =>
      var systemPrompt := cfg.env.format(cfg.params.systemTemplate, m);
      var (executorType, agent, err) := InitAgentSpec(cfg, vars, st.executorType, st.agent, systemPrompt);
      var built := cleared.(executorType := executorType, agent := agent, systemPrompts := [systemPrompt]);
      if err.Some? then (built, Err(err.value))
      else
        var f := Outputs(cfg, OnceContext(cfg, vars, st.saved, executorType, agent.value));
        var ran := built.(batchValues := f.batchValues, userPrompts := f.userPrompts);
        if f.err.Some? then (ran, Err(f.err.value))
        else (ran.(saved := st.saved + if cfg.outputUser then AiTurns(f.ret) else []), Ok(f.ret))
  }

  // ------------------------------------------------------------------
  // What `_run` promises
  // ------------------------------------------------------------------

  /**
   * At-most-once construction: an existing agent and executor type survive
   * any run; a run that builds the agent builds it with the system prompt
   * that run rendered.
   */
  lemma RunBuildsAgentOnce(cfg: NodeConfig, vars: map<string, Value>, st: NodeState)
    ensures var (st', _) := RunSpec(cfg, vars, st);
            st.agent.Some? ==> st'.agent == st.agent && st'.executorType == st.executorType
    ensures var (st', _) := RunSpec(cfg, vars, st);
            st.agent.None? && st'.agent.Some? ==>
              st'.systemPrompts != [] && st'.agent.value.assistantMessage == st'.systemPrompts[0]
  {
  }

  /** Two runs in a row build the agent the first time at most: the second reuses it. */
  lemma SecondRunReusesAgent(cfg: NodeConfig, vars1: map<string, Value>, vars2: map<string, Value>, st: NodeState)
    requires RunSpec(cfg, vars1, st).1.Ok?
    ensures var st1 := RunSpec(cfg, vars1, st).0;
            st1.agent.Some? && RunSpec(cfg, vars2, st1).0.agent == st1.agent
  {
    RunBuildsAgentOnce(cfg, vars2, RunSpec(cfg, vars1, st).0);
  }

  /**
   * The model lookup is checked before any tool is built: when it fails,
   * the outcome does not depend on the tool or knowledge configuration.
   */
  lemma ModelErrorBeforeTools(cfg: NodeConfig, cfg': NodeConfig, vars: map<string, Value>,
                              vars': map<string, Value>, executorType: string, systemPrompt: string)
    requires cfg'.env.assistantLlms == cfg.env.assistantLlms && cfg'.params.modelId == cfg.params.modelId
    requires SelectModel(cfg.env.assistantLlms, cfg.params.modelId).Err?
    ensures InitAgentSpec(cfg, vars, executorType, None, systemPrompt) ==
            InitAgentSpec(cfg', vars', executorType, None, systemPrompt)
    ensures InitAgentSpec(cfg, vars, executorType, None, systemPrompt).2.value in {EmptyModelList, ModelNotInList}
  {
  }

  /**
   * The audit lists after a run: at most one system prompt, exactly one when
   * the system variables resolve; on success one user prompt in single mode
   * and one per batch item in batch mode, and no batch value in single mode.
   * The lists are cleared before anything can fail: a run that fails on a
   * system variable or while building the agent leaves the user-prompt and
   * batch-value lists empty and saves no history, since no call was made.
   */
  lemma RunAuditLengths(cfg: NodeConfig, vars: map<string, Value>, st: NodeState)
    ensures var (st', r) := RunSpec(cfg, vars, st);
            var m := Resolve(vars, cfg.systemVariables, Sentinel(cfg), None);
            m.Err? ==>
              r == Err(m.error) && st'.systemPrompts == [] && st'.userPrompts == [] &&
              st'.batchValues == [] && st'.saved == st.saved
    ensures var (st', r) := RunSpec(cfg, vars, st);
            var m := Resolve(vars, cfg.systemVariables, Sentinel(cfg), None);
            var sp := if m.Ok? then cfg.env.format(cfg.params.systemTemplate, m.value) else "";
            var b := InitAgentSpec(cfg, vars, st.executorType, st.agent, sp);
            m.Ok? && b.2.Some? ==>
              r == Err(b.2.value) && st'.systemPrompts == [sp] && st'.userPrompts == [] &&
              st'.batchValues == [] && st'.saved == st.saved
    ensures var (st', _) := RunSpec(cfg, vars, st);
            |st'.systemPrompts| <= 1 &&
            (|st'.systemPrompts| == 1 <==> Resolve(vars, cfg.systemVariables, Sentinel(cfg), None).Ok?)
    ensures var (st', r) := RunSpec(cfg, vars, st);
            r.Ok? && cfg.params.tab == "single" ==> |st'.userPrompts| == 1 && st'.batchValues == []
    ensures var (st', r) := RunSpec(cfg, vars, st);
            r.Ok? && cfg.params.tab != "single" ==>
              |st'.userPrompts| == |cfg.params.batchVariable| &&
              |cfg.params.batchVariable| <= |cfg.params.outputKeys|
  {
    var (st', r) := RunSpec(cfg, vars, st);
    if r.Ok? && cfg.params.tab != "single" {
      var m := Resolve(vars, cfg.systemVariables, Sentinel(cfg), None).value;
      var sp := cfg.env.format(cfg.params.systemTemplate, m);
      var b := InitAgentSpec(cfg, vars, st.executorType, st.agent, sp);
      BatchRunAudit(OnceContext(cfg, vars, st.saved, b.0, b.1.value),
                    cfg.params.batchVariable, cfg.params.outputKeys);
    }
  }

  /**
   * The result dict of a successful run: exactly the key 'output' in single
   * mode; in batch mode with distinct output keys, the first
   * `len(batch_variable)` output keys in order, each holding the output of
   * the call for the batch item at the same index.
   */
  lemma RunResultKeys(cfg: NodeConfig, vars: map<string, Value>, st: NodeState)
    ensures var (_, r) := RunSpec(cfg, vars, st);
            r.Ok? && cfg.params.tab == "single" ==> Keys(r.value) == ["output"]
    ensures var (st', r) := RunSpec(cfg, vars, st);
            var n := |cfg.params.batchVariable|;
            r.Ok? && cfg.params.tab != "single" && n <= |cfg.params.outputKeys| &&
            Distinct(cfg.params.outputKeys[..n]) ==>
              st'.agent.Some? &&
              Keys(r.value) == cfg.params.outputKeys[..n] &&
              forall i :: 0 <= i < n ==>
                var s := RunOnceSpec(OnceContext(cfg, vars, st.saved, st'.executorType, st'.agent.value),
                                     Some(cfg.params.batchVariable[i]));
                s.out.Ok? && r.value[i].1 == s.out.value
  {
    var (st', r) := RunSpec(cfg, vars, st);
    if r.Ok? && cfg.params.tab != "single" {
      var m := Resolve(vars, cfg.systemVariables, Sentinel(cfg), None).value;
      var sp := cfg.env.format(cfg.params.systemTemplate, m);
      var b := InitAgentSpec(cfg, vars, st.executorType, st.agent, sp);
      BatchRunAudit(OnceContext(cfg, vars, st.saved, b.0, b.1.value),
                    cfg.params.batchVariable, cfg.params.outputKeys);
    }
  }

  /**
   * A batch with more items than output keys: once the agent is built and
   * the calls for the first `len(output)` items succeed, the run fails on
   * the next item's output index, having logged exactly `len(output)` user
   * prompts and saved no history.
   */
  lemma RunOutputIndexError(cfg: NodeConfig, vars: map<string, Value>, st: NodeState)
    ensures var (st', r) := RunSpec(cfg, vars, st);
            var k := |cfg.params.outputKeys|;
            cfg.params.tab != "single" && k < |cfg.params.batchVariable| &&
            Resolve(vars, cfg.systemVariables, Sentinel(cfg), None).Ok? && st'.agent.Some? &&
            (forall i :: 0 <= i < k ==>
               RunOnceSpec(OnceContext(cfg, vars, st.saved, st'.executorType, st'.agent.value),
                           Some(cfg.params.batchVariable[i])).out.Ok?) ==>
              r == Err(OutputIndexOutOfRange(k)) && |st'.userPrompts| == k && st'.saved == st.saved
  {
    var (st', r) := RunSpec(cfg, vars, st);
    var m := Resolve(vars, cfg.systemVariables, Sentinel(cfg), None);
    if cfg.params.tab != "single" && |cfg.params.outputKeys| < |cfg.params.batchVariable| && m.Ok? && st'.agent.Some? {
      var sp := cfg.env.format(cfg.params.systemTemplate, m.value);
      var b := InitAgentSpec(cfg, vars, st.executorType, st.agent, sp);
      var c := OnceContext(cfg, vars, st.saved, b.0, b.1.value);
      if forall i :: 0 <= i < |cfg.params.outputKeys| ==> RunOnceSpec(c, Some(cfg.params.batchVariable[i])).out.Ok? {
        BatchRunOutputIndex(c, cfg.params.batchVariable, cfg.params.outputKeys);
      }
    }
  }

  /**
   * Batch values: with the sentinel once among the system variables and
   * every batch item non-empty, a successful batch run logs the value of
   * each item's variable, in item order; without the sentinel, nothing.
   */
  lemma RunBatchValues(cfg: NodeConfig, vars: map<string, Value>, st: NodeState)
    ensures var (st', r) := RunSpec(cfg, vars, st);
            r.Ok? && Count(cfg.systemVariables, Sentinel(cfg)) == 0 ==> st'.batchValues == []
    ensures var (st', r) := RunSpec(cfg, vars, st);
            var batch := cfg.params.batchVariable;
            r.Ok? && cfg.params.tab != "single" && Count(cfg.systemVariables, Sentinel(cfg)) == 1 &&
            (forall i :: 0 <= i < |batch| ==> batch[i] != "") ==>
              |st'.batchValues| == |batch| &&
              forall i :: 0 <= i < |batch| ==> batch[i] in vars && st'.batchValues[i] == vars[batch[i]]
  {
    var (st', r) := RunSpec(cfg, vars, st);
    if r.Ok? {
      var m := Resolve(vars, cfg.systemVariables, Sentinel(cfg), None).value;
      var sp := cfg.env.format(cfg.params.systemTemplate, m);
      var b := InitAgentSpec(cfg, vars, st.executorType, st.agent, sp);
      var c := OnceContext(cfg, vars, st.saved, b.0, b.1.value);
      if cfg.params.tab != "single" {
        BatchRunAudit(c, cfg.params.batchVariable, cfg.params.outputKeys);
      }
    }
  }

  /**
   * Write-back: a failed run saves nothing; a successful one saves each
   * result value once as an 'AI' turn, in result-dict order, when the node
   * outputs to the user, and nothing otherwise.
   */
  lemma RunWriteBack(cfg: NodeConfig, vars: map<string, Value>, st: NodeState)
    ensures var (st', r) := RunSpec(cfg, vars, st);
            r.Err? ==> st'.saved == st.saved
    ensures var (st', r) := RunSpec(cfg, vars, st);
            r.Ok? && !cfg.outputUser ==> st'.saved == st.saved
    ensures var (st', r) := RunSpec(cfg, vars, st);
            r.Ok? && cfg.outputUser ==>
              |st'.saved| == |st.saved| + |r.value| && st'.saved[..|st.saved|] == st.saved &&
              forall i :: 0 <= i < |r.value| ==> st'.saved[|st.saved| + i] == Message("AI", r.value[i].1)
  {
    var (st', r) := RunSpec(cfg, vars, st);
    if r.Ok? && cfg.outputUser {
      assert st'.saved == st.saved + AiTurns(r.value);
    }
  }

  /** The run log of `parse_log`. */
  datatype Log = Log(systemPrompt: seq<string>, userPrompt: seq<string>, output: ResultDict,
                     batchVariable: Option<seq<Value>>)

  /** `parse_log`: the two prompt lists and the result, plus the batch values when there are any. */
  function ParseLog(st: NodeState, result: ResultDict): (l: Log)
    ensures l.systemPrompt == st.systemPrompts && l.userPrompt == st.userPrompts && l.output == result
    ensures l.batchVariable.Some? <==> st.batchValues != []
    ensures l.batchVariable.Some? ==> l.batchVariable.value == st.batchValues
  {
    Log(st.systemPrompts, st.userPrompts, result,
        if st.batchValues != [] then Some(st.batchValues) else None)
  }

  // ------------------------------------------------------------------
  // The workflow state and the node
  // ------------------------------------------------------------------

  /** The part of the workflow graph state the node touches. */
  class GraphState {
    var vars: map<string, Value>
    var saved: seq<Message>

    constructor(vars: map<string, Value>)
      ensures this.vars == vars && saved == []
    {
      this.vars := vars;
      saved := [];
    }

    /** `save_context(content, msg_sender)`: one more chat turn. */
    method SaveContext(content: string, sender: string)
      modifies this`saved
      ensures saved == old(saved) + [Message(sender, content)]
    {
      saved := saved + [Message(sender, content)];
    }
  }

  class AgentNode {
    const cfg: NodeConfig
    const graph: GraphState
    var executorType: string          // _agent_executor_type
    var agent: Option<Agent>          // _agent
    var batchVariableList: seq<Value> // _batch_variable_list
    var systemPromptList: seq<string> // _system_prompt_list
    var userPromptList: seq<string>   // _user_prompt_list

    /** `__init__`: the derived configuration, no agent, empty audit lists. */
    constructor(id: string, workflowId: string, tmpCollectionName: string,
                params: NodeParams, env: Env, graph: GraphState)
      ensures cfg == NewConfig(id, workflowId, tmpCollectionName, params, env) && this.graph == graph
      ensures cfg.llm.temperature == (if params.temperature.Some? then params.temperature.value else 0.3)
      ensures cfg.outputUser == (params.outputUser == Some(true))
      ensures executorType == InitialExecutorType && agent.None?
      ensures batchVariableList == [] && systemPromptList == [] && userPromptList == []
    {
      cfg := NewConfig(id, workflowId, tmpCollectionName, params, env);
      this.graph := graph;
      executorType := InitialExecutorType;
      agent := None;
      batchVariableList := [];
      systemPromptList := [];
      userPromptList := [];
    }

    function State(): NodeState
      reads this, graph
    {
      NodeState(executorType, agent, batchVariableList, systemPromptList, userPromptList, graph.saved)
    }

    /**
     * A `variable_map` loop: each variable read from the workflow state,
     * the batch sentinel from `input` when `input` is truthy.
     */
    method ResolveVariables(names: seq<string>, input: Option<string>) returns (r: Result<map<string, Value>, Error>)
      ensures r == Resolve(graph.vars, names, Sentinel(cfg), input)
    {
      var m: map<string, Value> := map[];
      var i := 0;
      while i < |names|
        invariant 0 <= i <= |names|
        invariant Resolve(graph.vars, names[..i], Sentinel(cfg), input) == Ok(m)
      {
        var source := if Truthy(input) && names[i] == Sentinel(cfg) then input.value else names[i];
        assert names[..i + 1][..i] == names[..i];
        if source !in graph.vars {
          ResolveStops(graph.vars, names, Sentinel(cfg), input, i + 1);
          return Err(UnknownVariable(source));
        }
        m := m[names[i] := graph.vars[source]];
        i := i + 1;
      }
      assert names[..i] == names;
      return Ok(m);
    }

    /**
     * The system-variable loop of `_run_once`: its lookups only check that
     * the variables exist, except that each sentinel occurrence appends the
     * batch item's value to `_batch_variable_list`.
     */
    method SystemVariablePass(input: Option<string>) returns (err: Option<Error>)
      modifies this`batchVariableList
      ensures var p := SystemPass(graph.vars, cfg.systemVariables, Sentinel(cfg), input);
              batchVariableList == old(batchVariableList) + p.0 && err == p.1
    {
      var names := cfg.systemVariables;
      var i := 0;
      while i < |names|
        invariant 0 <= i <= |names|
        invariant var p := SystemPass(graph.vars, names[..i], Sentinel(cfg), input);
                  p.1.None? && batchVariableList == old(batchVariableList) + p.0
      {
        assert names[..i + 1][..i] == names[..i];
        if Truthy(input) && names[i] == Sentinel(cfg) {
          if input.value !in graph.vars {
            SystemPassStops(graph.vars, names, Sentinel(cfg), input, i + 1);
            return Some(UnknownVariable(input.value));
          }
          batchVariableList := batchVariableList + [graph.vars[input.value]];
        } else if names[i] !in graph.vars {
          SystemPassStops(graph.vars, names, Sentinel(cfg), input, i + 1);
          return Some(UnknownVariable(names[i]));
        }
        i := i + 1;
      }
      assert names[..i] == names;
      return None;
    }

    /**
     * `_run_once(input_variable, unique_id, output_key)`; `unique_id` and
     * `output_key` only feed the streaming callback.
     */
    method RunOnce(input: Option<string>, uniqueId: string, outputKey: string) returns (out: Result<string, Error>)
      requires agent.Some?
      modifies this`batchVariableList, this`userPromptList
      ensures var s := RunOnceSpec(OnceContext(cfg, graph.vars, graph.saved, executorType, agent.value), input);
              batchVariableList == old(batchVariableList) + s.batchValues &&
              userPromptList == old(userPromptList) + s.userPrompts && out == s.out
    {
      var err := SystemVariablePass(input);
      if err.Some? {
        return Err(err.value);
      }
      var m := ResolveVariables(cfg.userVariables, input);
      if m.Err? {
        return Err(m.error);
      }
      var user := cfg.env.format(cfg.params.userTemplate, m.value);
      userPromptList := userPromptList + [user];
      var chatHistory: seq<Message> := [];
      if cfg.params.chatHistoryFlag {
        chatHistory := cfg.env.history(graph.saved, cfg.params.chatHistoryNum);
      }
      var result;
      if executorType == "ReAct" {
        result := cfg.env.invoke(agent.value, ReActInput(user, chatHistory));
      } else {
        chatHistory := chatHistory + [HumanMessage(user)];
        result := cfg.env.invoke(agent.value, ChatMessages(chatHistory));
      }
      out := LastContent(result);
    }

    /** `_init_knowledge_tools(knowledge_retriever)`. */
    method InitKnowledgeTools(retriever: RetrieverConfig) returns (r: Result<seq<Tool>, Error>)
      ensures r == KnowledgeTools(cfg.params.knowledgeType, cfg.params.knowledgeKeys, StoreCtx(cfg, graph.vars),
                                  cfg.llm, retriever, cfg.env.loadTools)
    {
      var keys := cfg.params.knowledgeKeys;
      if |keys| == 0 {
        return Ok([]);
      }
      var cx := StoreCtx(cfg, graph.vars);
      var tools: seq<Tool> := [];
      ghost var specs: seq<RagToolSpec> := [];
      for i := 0 to |keys|
        invariant RagSpecs(cfg.params.knowledgeType, keys[..i], cx, cfg.llm, retriever) == Ok(specs)
        invariant tools == LoadAll(specs, cfg.env.loadTools, cfg.llm)
      {
        assert keys[..i + 1][..i] == keys[..i];
        var spec := KnowledgeToolSpec(cfg.params.knowledgeType, keys[i], cx, cfg.llm, retriever);
        if spec.Err? {
          RagSpecsStops(cfg.params.knowledgeType, keys, cx, cfg.llm, retriever, i + 1);
          return Err(spec.error);
        }
        tools := tools + cfg.env.loadTools(spec.value, cfg.llm);
        assert (specs + [spec.value])[..|specs|] == specs;
        specs := specs + [spec.value];
      }
      assert keys[..|keys|] == keys;
      return Ok(tools);
    }

    /** `_init_agent(system_prompt)`. */
    method InitAgent(systemPrompt: string) returns (err: Option<Error>)
      modifies this`executorType, this`agent
      ensures (executorType, agent, err) == InitAgentSpec(cfg, graph.vars, old(executorType), old(agent), systemPrompt)
    {
      if agent.Some? {
        return None;
      }
      var selected := SelectModel(cfg.env.assistantLlms, cfg.params.modelId);
      if selected.Err? {
        return Some(selected.error);
      }
      executorType := selected.value.agentExecutorType;
      var retriever := RetrieverOf(selected.value);
      var funcTools := InitTools(cfg.params.toolList, cfg.llm, cfg.env.initToolsById);
      if funcTools.Err? {
        return Some(funcTools.error);
      }
      var knowledgeTools := InitKnowledgeTools(retriever);
      if knowledgeTools.Err? {
        return Some(knowledgeTools.error);
      }
      agent := Some(Agent(ExecutorName(executorType), funcTools.value + knowledgeTools.value, cfg.llm, systemPrompt));
      return None;
    }

    /** The single call or the batch loop of `_run`, filling `ret`. */
    method RunOutputs(uniqueId: string) returns (ret: ResultDict, err: Option<Error>)
      requires agent.Some?
      modifies this`batchVariableList, this`userPromptList
      ensures var f := Outputs(cfg, OnceContext(cfg, graph.vars, graph.saved, executorType, agent.value));
              batchVariableList == old(batchVariableList) + f.batchValues &&
              userPromptList == old(userPromptList) + f.userPrompts &&
              ret == f.ret && err == f.err
    {
      if cfg.params.tab == "single" {
        var out := RunOnce(None, uniqueId, "output");
        if out.Err? {
          return [], Some(out.error);
        }
        return [("output", out.value)], None;
      }
      ret, err := RunBatch(uniqueId, OnceContext(cfg, graph.vars, graph.saved, executorType, agent.value));
    }

    /** The batch loop: `_run_once(batch_variable[i], ..., output[i]['key'])` for each index. */
    method RunBatch(uniqueId: string, ghost c: OnceCtx) returns (ret: ResultDict, err: Option<Error>)
      requires agent.Some? && c == OnceContext(cfg, graph.vars, graph.saved, executorType, agent.value)
      modifies this`batchVariableList, this`userPromptList
      ensures var f := BatchRun(c, cfg.params.batchVariable, cfg.params.outputKeys);
              batchVariableList == old(batchVariableList) + f.batchValues &&
              userPromptList == old(userPromptList) + f.userPrompts &&
              ret == f.ret && err == f.err
    {
      ghost var steps := Steps(c, cfg.params.batchVariable);
      ret := [];
      err := None;
      var i := 0;
      while i < |cfg.params.batchVariable| && err.None?
        invariant 0 <= i <= |steps|
        invariant var f := BatchFold(steps, cfg.params.outputKeys, i);
                  f.err == err && f.ret == ret &&
                  batchVariableList == old(batchVariableList) + f.batchValues &&
                  userPromptList == old(userPromptList) + f.userPrompts
      {
        ret, err := RunItem(uniqueId, c, steps, old(batchVariableList), old(userPromptList), i, ret);
        i := i + 1;
      }
      ghost var final := BatchRun(c, cfg.params.batchVariable, cfg.params.outputKeys);
      assert final == BatchFold(steps, cfg.params.outputKeys, |steps|);
      if err.Some? {
        BatchFoldStops(steps, cfg.params.outputKeys, i, |steps|);
      } else {
        assert i == |steps|;
      }
    }

    /** One iteration of the batch loop: item `i` stored under `output[i]['key']`. */
    method RunItem(uniqueId: string, ghost c: OnceCtx, ghost steps: seq<Step>,
                   ghost values0: seq<Value>, ghost prompts0: seq<string>, i: nat, ret: ResultDict)
      returns (ret': ResultDict, err: Option<Error>)
      requires agent.Some? && c == OnceContext(cfg, graph.vars, graph.saved, executorType, agent.value)
      requires i < |steps| == |cfg.params.batchVariable| && steps[i] == RunOnceSpec(c, Some(cfg.params.batchVariable[i]))
      requires var prev := BatchFold(steps, cfg.params.outputKeys, i);
               prev.err.None? && prev.ret == ret &&
               batchVariableList == values0 + prev.batchValues && userPromptList == prompts0 + prev.userPrompts
      modifies this`batchVariableList, this`userPromptList
      ensures var f := BatchFold(steps, cfg.params.outputKeys, i + 1);
              batchVariableList == values0 + f.batchValues && userPromptList == prompts0 + f.userPrompts &&
              ret' == f.ret && err == f.err
    {
      ghost var prev := BatchFold(steps, cfg.params.outputKeys, i);
      BatchFoldNext(steps, cfg.params.outputKeys, i + 1);
      if i >= |cfg.params.outputKeys| {
        return ret, Some(OutputIndexOutOfRange(i));
      }
      assert (values0 + prev.batchValues) + steps[i].batchValues == values0 + (prev.batchValues + steps[i].batchValues);
      assert (prompts0 + prev.userPrompts) + steps[i].userPrompts == prompts0 + (prev.userPrompts + steps[i].userPrompts);
      var outputKey := cfg.params.outputKeys[i];
      var out := RunOnce(Some(cfg.params.batchVariable[i]), uniqueId, outputKey);
      if out.Err? {
        return ret, Some(out.error);
      }
      ret' := Put(ret, outputKey, out.value);
      err := None;
    }

    /** The write-back loop of `_run`: each result value saved as an 'AI' turn. */
    method SaveResults(ret: ResultDict)
      modifies graph`saved
      ensures graph.saved == old(graph.saved) + AiTurns(ret)
    {
      var turns := AiTurns(ret);
      for j := 0 to |ret|
        invariant graph.saved == old(graph.saved) + turns[..j]
      {
        graph.SaveContext(ret[j].1, "AI");
        assert turns[..j + 1] == turns[..j] + [turns[j]];
      }
      assert turns[..|ret|] == turns;
    }

    /** `_run(unique_id)`. */
    method Run(uniqueId: string) returns (r: Result<ResultDict, Error>)
      modifies this, graph`saved
      ensures graph.vars == old(graph.vars)
      ensures (State(), r) == RunSpec(cfg, old(graph.vars), old(State()))
    {
      ghost var spec := RunSpec(cfg, graph.vars, State());
      batchVariableList := [];
      systemPromptList := [];
      userPromptList := [];
      var m := ResolveVariables(cfg.systemVariables, None);
      if m.Err? {
        return Err(m.error);
      }
      var systemPrompt := cfg.env.format(cfg.params.systemTemplate, m.value);
      systemPromptList := systemPromptList + [systemPrompt];
      var err := InitAgent(systemPrompt);
      assert (executorType, agent, err) == InitAgentSpec(cfg, graph.vars, old(executorType), old(agent), systemPrompt);
      if err.Some? {
        assert spec.0 == State();
        return Err(err.value);
      }
      var ret, runErr := RunOutputs(uniqueId);
      if runErr.Some? {
        assert spec.0 == State();
        return Err(runErr.value);
      }
      if cfg.outputUser {
        SaveResults(ret);
      }
      assert spec.0 == State();
      return Ok(ret);
    }
  }
}
