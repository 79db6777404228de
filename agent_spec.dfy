/**
 * Pure specification of what the agent node computes (agent.py): model
 * selection, tool assembly, prompt-variable resolution with the batch
 * sentinel, one agent call per output, and the batch fan-out with its audit
 * lists. The methods of AgentNode.AgentNode are proved against these.
 */
module AgentSpec {
  import opened Wrappers
  import opened PyValues
  import opened AgentTypes
  import opened Retrieval

  // ------------------------------------------------------------------
  // Model selection (_init_agent)
  // ------------------------------------------------------------------

  /** `[one for one in llm_list if one.model_id == model_id]`. */
  function Matching(llms: seq<AssistantLlm>, modelId: string): (r: seq<AssistantLlm>)
    ensures |r| <= |llms|
    ensures forall x :: x in r ==> x in llms && x.modelId == modelId
    ensures r == [] <==> forall k :: 0 <= k < |llms| ==> llms[k].modelId != modelId
    ensures r != [] ==> exists k :: 0 <= k < |llms| && llms[k] == r[0] &&
                                    forall j :: 0 <= j < k ==> llms[j].modelId != modelId
    decreases |llms|
  {
    if llms == [] then []
    else
      var rest := Matching(llms[1..], modelId);
      assert forall k :: 1 <= k < |llms| ==> llms[k] == llms[1..][k - 1];
      if llms[0].modelId == modelId then [llms[0]] + rest
      else
        assert rest != [] ==> exists k :: 1 <= k < |llms| && llms[k] == rest[0] &&
                                           forall j :: 0 <= j < k ==> llms[j].modelId != modelId by {
          if rest != [] {
            var k' :| 0 <= k' < |llms[1..]| && llms[1..][k'] == rest[0] &&
                     forall j :: 0 <= j < k' ==> llms[1..][j].modelId != modelId;
            assert llms[k' + 1] == rest[0];
            assert forall j :: 0 <= j < k' + 1 ==> llms[j].modelId != modelId by {
              forall j | 0 <= j < k' + 1 ensures llms[j].modelId != modelId {
                if j > 0 { assert llms[j] == llms[1..][j - 1]; }
              }
            }
          }
        }
        rest
  }

  /**
   * The assistant model the node runs on: the first entry of the operator's
   * list whose id is the configured one. An empty list and a missing id are
   * the two configuration errors.
   */
  function SelectModel(llms: seq<AssistantLlm>, modelId: string): (r: Result<AssistantLlm, Error>)
    ensures r == Err(EmptyModelList) <==> llms == []
    ensures r == Err(ModelNotInList) <==>
              llms != [] && forall k :: 0 <= k < |llms| ==> llms[k].modelId != modelId
    ensures r.Err? ==> r.error == EmptyModelList || r.error == ModelNotInList
    ensures r.Ok? ==> r.value.modelId == modelId &&
                      exists k :: 0 <= k < |llms| && llms[k] == r.value &&
                                  forall j :: 0 <= j < k ==> llms[j].modelId != modelId
  {
    if llms == [] then Err(EmptyModelList)
    else
      var found := Matching(llms, modelId);
      if found == [] then Err(ModelNotInList) else Ok(found[0])
  }

  /** The `knowledge_retriever` dict taken from the selected model. */
  function RetrieverOf(a: AssistantLlm): RetrieverConfig {
    RetrieverConfig(a.knowledgeMaxContent, a.knowledgeSortIndex)
  }

  // ------------------------------------------------------------------
  // Tool assembly (_init_tools, _init_knowledge_tools)
  // ------------------------------------------------------------------

  /** `[int(one['key']) for one in tool_list]`: fails on the first key `int` rejects. */
  function ToolIds(keys: seq<Value>): (r: Result<seq<int>, Error>)
    ensures r.Ok? ==> |r.value| == |keys| &&
                      forall k :: 0 <= k < |keys| ==> ToInt(keys[k]) == Some(r.value[k])
    ensures r.Err? ==> exists k :: 0 <= k < |keys| && ToInt(keys[k]).None? &&
                                   r.error == InvalidToolId(keys[k]) &&
                                   forall j :: 0 <= j < k ==> ToInt(keys[j]).Some?
    ensures (forall k :: 0 <= k < |keys| ==> ToInt(keys[k]).Some?) ==> r.Ok?
    decreases |keys|
  {
    if keys == [] then Ok([])
    else
      assert forall k :: 1 <= k < |keys| ==> keys[k] == keys[1..][k - 1];
      match ToInt(keys[0])
      case None => Err(InvalidToolId(keys[0]))
      case Some(id) =>
        match ToolIds(keys[1..])
        case Err(e) =>
          assert exists k :: 1 <= k < |keys| && ToInt(keys[k]).None? && e == InvalidToolId(keys[k]) &&
                             forall j :: 0 <= j < k ==> ToInt(keys[j]).Some? by {
            var k' :| 0 <= k' < |keys[1..]| && ToInt(keys[1..][k']).None? && e == InvalidToolId(keys[1..][k']) &&
                      forall j :: 0 <= j < k' ==> ToInt(keys[1..][j]).Some?;
            assert keys[k' + 1] == keys[1..][k'];
            forall j | 0 <= j < k' + 1 ensures ToInt(keys[j]).Some? {
              if j > 0 { assert keys[j] == keys[1..][j - 1]; }
            }
          }
          Err(e)
        case Ok(rest) => Ok([id] + rest)
  }

  /** The function tools: none when no tool is configured, else those the tool ids load. */
  function InitTools(keys: seq<Value>, llm: Llm, initById: (seq<int>, Llm) -> seq<Tool>)
    : (r: Result<seq<Tool>, Error>)
    ensures keys == [] ==> r == Ok([])
    ensures keys != [] ==> (r.Ok? <==> ToolIds(keys).Ok?)
    ensures keys != [] && r.Ok? ==> r.value == initById(ToolIds(keys).value, llm)
    ensures keys != [] && r.Err? ==> r.error == ToolIds(keys).error
  {
    if keys == [] then Ok([])
    else
      match ToolIds(keys)
      case Err(e) => Err(e)
      case Ok(ids) => Ok(initById(ids, llm))
  }

  /**
   * One `bisheng_rag` specification per knowledge key, in key order; the
   * first key whose lookup fails decides the error.
   */
  function RagSpecs(kind: string, keys: seq<string>, cx: StoreContext, llm: Llm, retriever: RetrieverConfig)
    : Result<seq<RagToolSpec>, Error>
    decreases |keys|
  {
    if keys == [] then Ok([])
    else
      var n := |keys| - 1;
      match RagSpecs(kind, keys[..n], cx, llm, retriever)
      case Err(e) => Err(e)
      case Ok(prev) =>
        match KnowledgeToolSpec(kind, keys[n], cx, llm, retriever)
        case Err(e) => Err(e)
        case Ok(spec) => Ok(prev + [spec])
  }

  /** A successful loop yields one specification per key, in key order, each the one its key yields. */
  lemma {:induction false} RagSpecsPerKey(kind: string, keys: seq<string>, cx: StoreContext, llm: Llm,
                                          retriever: RetrieverConfig)
    requires RagSpecs(kind, keys, cx, llm, retriever).Ok?
    ensures var specs := RagSpecs(kind, keys, cx, llm, retriever).value;
            |specs| == |keys| &&
            forall k :: 0 <= k < |keys| ==> KnowledgeToolSpec(kind, keys[k], cx, llm, retriever) == Ok(specs[k])
    decreases |keys|
  {
    if keys != [] {
      var n := |keys| - 1;
      RagSpecsPerKey(kind, keys[..n], cx, llm, retriever);
      var prev := RagSpecs(kind, keys[..n], cx, llm, retriever).value;
      var last := KnowledgeToolSpec(kind, keys[n], cx, llm, retriever);
      assert RagSpecs(kind, keys, cx, llm, retriever).value == prev + [last.value];
      assert forall k :: 0 <= k < n ==> keys[..n][k] == keys[k] && (prev + [last.value])[k] == prev[k];
    }
  }

  /** A failed loop reports the error of the first key that fails. */
  lemma {:induction false} RagSpecsFirstError(kind: string, keys: seq<string>, cx: StoreContext, llm: Llm,
                                              retriever: RetrieverConfig)
    requires RagSpecs(kind, keys, cx, llm, retriever).Err?
    ensures exists k :: 0 <= k < |keys| &&
              KnowledgeToolSpec(kind, keys[k], cx, llm, retriever) == Err(RagSpecs(kind, keys, cx, llm, retriever).error) &&
              forall j :: 0 <= j < k ==> KnowledgeToolSpec(kind, keys[j], cx, llm, retriever).Ok?
    decreases |keys|
  {
    var n := |keys| - 1;
    var prev := RagSpecs(kind, keys[..n], cx, llm, retriever);
    if prev.Err? {
      RagSpecsFirstError(kind, keys[..n], cx, llm, retriever);
      var k :| 0 <= k < n && KnowledgeToolSpec(kind, keys[..n][k], cx, llm, retriever) == Err(prev.error) &&
               forall j :: 0 <= j < k ==> KnowledgeToolSpec(kind, keys[..n][j], cx, llm, retriever).Ok?;
      assert forall j :: 0 <= j < n ==> keys[..n][j] == keys[j];
      assert RagSpecs(kind, keys, cx, llm, retriever) == prev;
    } else {
      RagSpecsPerKey(kind, keys[..n], cx, llm, retriever);
      assert forall j :: 0 <= j < n ==> keys[..n][j] == keys[j];
      var last := KnowledgeToolSpec(kind, keys[n], cx, llm, retriever);
      assert last.Err? && RagSpecs(kind, keys, cx, llm, retriever).error == last.error;
    }
  }

  /** A key that fails stops the loop: later keys are never looked at. */
  lemma {:induction false} RagSpecsStops(kind: string, keys: seq<string>, cx: StoreContext, llm: Llm,
                                         retriever: RetrieverConfig, n: nat)
    requires n <= |keys|
    requires RagSpecs(kind, keys[..n], cx, llm, retriever).Err?
    ensures RagSpecs(kind, keys, cx, llm, retriever) == RagSpecs(kind, keys[..n], cx, llm, retriever)
    decreases |keys|
  {
    if n < |keys| {
      var m := |keys| - 1;
      assert keys[..m][..n] == keys[..n];
      RagSpecsStops(kind, keys[..m], cx, llm, retriever, n);
    } else {
      assert keys[..n] == keys;
    }
  }

  /** `tools.extend(load_tools(...))` for each specification, in order. */
  function LoadAll(specs: seq<RagToolSpec>, loadTools: (RagToolSpec, Llm) -> seq<Tool>, llm: Llm): seq<Tool>
    decreases |specs|
  {
    if specs == [] then []
    else LoadAll(specs[..|specs| - 1], loadTools, llm) + loadTools(specs[|specs| - 1], llm)
  }

  /** The value `_init_knowledge_tools` returns or the error it raises. */
  function KnowledgeTools(kind: string, keys: seq<string>, cx: StoreContext, llm: Llm,
                          retriever: RetrieverConfig, loadTools: (RagToolSpec, Llm) -> seq<Tool>)
    : Result<seq<Tool>, Error>
  {
    match RagSpecs(kind, keys, cx, llm, retriever)
    case Err(e) => Err(e)
    case Ok(specs) => Ok(LoadAll(specs, loadTools, llm))
  }

  /**
   * The tool list given to the agent: the function tools, then the
   * knowledge tools. The function tools are built first, so their error
   * wins.
   */
  function AssembleTools(toolKeys: seq<Value>, initById: (seq<int>, Llm) -> seq<Tool>,
                         kind: string, keys: seq<string>, cx: StoreContext, llm: Llm,
                         retriever: RetrieverConfig, loadTools: (RagToolSpec, Llm) -> seq<Tool>)
    : (r: Result<seq<Tool>, Error>)
    ensures InitTools(toolKeys, llm, initById).Err? ==> r == Err(InitTools(toolKeys, llm, initById).error)
    ensures r.Ok? <==> InitTools(toolKeys, llm, initById).Ok? &&
                       KnowledgeTools(kind, keys, cx, llm, retriever, loadTools).Ok?
    ensures r.Ok? ==> r.value == InitTools(toolKeys, llm, initById).value +
                                 KnowledgeTools(kind, keys, cx, llm, retriever, loadTools).value
    ensures r.Ok? && keys == [] ==> r.value == InitTools(toolKeys, llm, initById).value
    ensures r.Ok? && toolKeys == [] ==> r.value == KnowledgeTools(kind, keys, cx, llm, retriever, loadTools).value
  {
    match InitTools(toolKeys, llm, initById)
    case Err(e) => Err(e)
    case Ok(funcTools) =>
      match KnowledgeTools(kind, keys, cx, llm, retriever, loadTools)
      case Err(e) => Err(e)
      case Ok(knowledgeTools) => Ok(funcTools + knowledgeTools)
  }

  // ------------------------------------------------------------------
  // Prompt variables and the batch sentinel (_run, _run_once)
  // ------------------------------------------------------------------

  /** Python truthiness of the optional `input_variable`. */
  predicate Truthy(input: Option<string>) { input.Some? && input.value != "" }

  /** The workflow variable a template variable is read from. */
  function SourceOf(name: string, sentinel: string, input: Option<string>): string {
    if Truthy(input) && name == sentinel then input.value else name
  }

  /**
   * The `variable_map` built for a template: every variable resolved from
   * the workflow state, the batch sentinel from `input` when `input` is
   * truthy. The first unresolvable variable is the error.
   */
  function Resolve(vars: map<string, Value>, names: seq<string>, sentinel: string, input: Option<string>)
    : Result<map<string, Value>, Error>
    decreases |names|
  {
    if names == [] then Ok(map[])
    else
      var n := |names| - 1;
      match Resolve(vars, names[..n], sentinel, input)
      case Err(e) => Err(e)
      case Ok(m) =>
        match Lookup(vars, SourceOf(names[n], sentinel, input))
        case Err(e) => Err(e)
        case Ok(v) => Ok(m[names[n] := v])
  }

  /** Resolution succeeds exactly when every variable's source exists in the workflow state. */
  lemma {:induction false} ResolveSucceeds(vars: map<string, Value>, names: seq<string>, sentinel: string,
                                           input: Option<string>)
    ensures Resolve(vars, names, sentinel, input).Ok? <==>
            forall k :: 0 <= k < |names| ==> SourceOf(names[k], sentinel, input) in vars
    decreases |names|
  {
    if names != [] {
      var n := |names| - 1;
      ResolveSucceeds(vars, names[..n], sentinel, input);
      assert forall k :: 0 <= k < n ==> names[..n][k] == names[k];
    }
  }

  /**
   * A successful resolution binds exactly the template's variables, each
   * to the value of its source.
   */
  lemma {:induction false} ResolveBindings(vars: map<string, Value>, names: seq<string>, sentinel: string,
                                           input: Option<string>)
    requires Resolve(vars, names, sentinel, input).Ok?
    ensures var m := Resolve(vars, names, sentinel, input).value;
            m.Keys == (set k | 0 <= k < |names| :: names[k]) &&
            forall k :: 0 <= k < |names| ==>
              SourceOf(names[k], sentinel, input) in vars && m[names[k]] == vars[SourceOf(names[k], sentinel, input)]
    decreases |names|
  {
    if names != [] {
      var n := |names| - 1;
      ResolveBindings(vars, names[..n], sentinel, input);
      assert forall k :: 0 <= k < n ==> names[..n][k] == names[k];
      assert (set k | 0 <= k < |names| :: names[k]) == (set k | 0 <= k < n :: names[..n][k]) + {names[n]};
    }
  }

  /** A failed resolution reports the first variable whose source is missing. */
  lemma {:induction false} ResolveFirstError(vars: map<string, Value>, names: seq<string>, sentinel: string,
                                             input: Option<string>)
    requires Resolve(vars, names, sentinel, input).Err?
    ensures exists k :: 0 <= k < |names| &&
              Resolve(vars, names, sentinel, input).error == UnknownVariable(SourceOf(names[k], sentinel, input)) &&
              SourceOf(names[k], sentinel, input) !in vars &&
              forall j :: 0 <= j < k ==> SourceOf(names[j], sentinel, input) in vars
    decreases |names|
  {
    var n := |names| - 1;
    var prev := Resolve(vars, names[..n], sentinel, input);
    if prev.Err? {
      ResolveFirstError(vars, names[..n], sentinel, input);
      var k :| 0 <= k < n && prev.error == UnknownVariable(SourceOf(names[..n][k], sentinel, input)) &&
               SourceOf(names[..n][k], sentinel, input) !in vars &&
               forall j :: 0 <= j < k ==> SourceOf(names[..n][j], sentinel, input) in vars;
      assert names[..n][k] == names[k];
      assert forall j :: 0 <= j < k ==> names[..n][j] == names[j];
    } else {
      ResolveSucceeds(vars, names[..n], sentinel, input);
      assert forall j :: 0 <= j < n ==> names[..n][j] == names[j];
      assert SourceOf(names[n], sentinel, input) !in vars;
    }
  }

  /** The first unresolvable variable ends the pass: later variables are never looked up. */
  lemma {:induction false} ResolveStops(vars: map<string, Value>, names: seq<string>, sentinel: string,
                                        input: Option<string>, n: nat)
    requires n <= |names|
    requires Resolve(vars, names[..n], sentinel, input).Err?
    ensures Resolve(vars, names, sentinel, input) == Resolve(vars, names[..n], sentinel, input)
    decreases |names|
  {
    if n < |names| {
      var m := |names| - 1;
      assert names[..m][..n] == names[..n];
      ResolveStops(vars, names[..m], sentinel, input, n);
    } else {
      assert names[..n] == names;
    }
  }

  /** Number of occurrences of `x` in `s`. */
  function Count(s: seq<string>, x: string): nat
    decreases |s|
  {
    if s == [] then 0
    else Count(s[..|s| - 1], x) + (if s[|s| - 1] == x then 1 else 0)
  }

  /**
   * The system-variable pass of `_run_once`: its lookups are discarded,
   * except that each sentinel occurrence appends the batch item's value to
   * the batch-value log. Returns what was appended and the error, if any
   * (the appends made before a failing lookup stay).
   */
  function SystemPass(vars: map<string, Value>, names: seq<string>, sentinel: string, input: Option<string>)
    : (seq<Value>, Option<Error>)
    decreases |names|
  {
    if names == [] then ([], None)
    else
      var n := |names| - 1;
      var prev := SystemPass(vars, names[..n], sentinel, input);
      if prev.1.Some? then prev
      else
        match Lookup(vars, SourceOf(names[n], sentinel, input))
        case Err(e) => (prev.0, Some(e))
        case Ok(v) =>
          if Truthy(input) && names[n] == sentinel then (prev.0 + [v], None) else prev
  }

  /**
   * What the pass logs: nothing without a (truthy) batch item; with one, a
   * pass that succeeds logs the item's value once per sentinel occurrence.
   */
  lemma {:induction false} SystemPassLog(vars: map<string, Value>, names: seq<string>, sentinel: string,
                                         input: Option<string>)
    ensures var r := SystemPass(vars, names, sentinel, input);
            (!Truthy(input) ==> r.0 == []) &&
            (r.1.None? && Truthy(input) ==>
               |r.0| == Count(names, sentinel) &&
               (r.0 != [] ==> input.value in vars && forall i :: 0 <= i < |r.0| ==> r.0[i] == vars[input.value]))
    decreases |names|
  {
    if names != [] {
      var n := |names| - 1;
      SystemPassLog(vars, names[..n], sentinel, input);
      assert Count(names, sentinel) == Count(names[..n], sentinel) + (if names[n] == sentinel then 1 else 0);
    }
  }

  /**
   * The system pass fails exactly when resolving the system variables does,
   * with the same error: the sentinel swap is the only difference.
   */
  lemma {:induction false} SystemPassFailsLikeResolve(vars: map<string, Value>, names: seq<string>,
                                                      sentinel: string, input: Option<string>)
    ensures var r := SystemPass(vars, names, sentinel, input);
            var m := Resolve(vars, names, sentinel, input);
            (r.1.None? <==> m.Ok?) && (r.1.Some? ==> r.1 == Some(m.error))
    decreases |names|
  {
    if names != [] {
      var n := |names| - 1;
      SystemPassFailsLikeResolve(vars, names[..n], sentinel, input);
    }
  }

  /** After a failed lookup the system pass appends nothing more. */
  lemma {:induction false} SystemPassStops(vars: map<string, Value>, names: seq<string>, sentinel: string,
                                           input: Option<string>, n: nat)
    requires n <= |names|
    requires SystemPass(vars, names[..n], sentinel, input).1.Some?
    ensures SystemPass(vars, names, sentinel, input) == SystemPass(vars, names[..n], sentinel, input)
    decreases |names|
  {
    if n < |names| {
      var m := |names| - 1;
      assert names[..m][..n] == names[..n];
      SystemPassStops(vars, names[..m], sentinel, input, n);
      var prev := SystemPass(vars, names[..m], sentinel, input);
      assert prev.1.Some?;
      assert SystemPass(vars, names, sentinel, input) == prev;
    } else {
      assert names[..n] == names;
    }
  }

  // ------------------------------------------------------------------
  // One agent call (_run_once)
  // ------------------------------------------------------------------

  /** Everything `_run_once` reads, fixed for the whole of one `_run`. */
  datatype OnceCtx = OnceCtx(
    vars: map<string, Value>, sentinel: string,
    systemVariables: seq<string>, userVariables: seq<string>,
    userTemplate: string, format: (string, map<string, Value>) -> string,
    history: seq<Message>, executorType: string,
    agent: Agent, invoke: (Agent, Invocation) -> Option<seq<Message>>)

  /** What one `_run_once` appends to the two audit lists, and its outcome. */
  datatype Step = Step(batchValues: seq<Value>, userPrompts: seq<string>, out: Result<string, Error>)

  /** The chat history an agent call sees. */
  function HistoryFor(flag: bool, num: nat, historyOf: (seq<Message>, nat) -> seq<Message>, saved: seq<Message>)
    : (r: seq<Message>)
    ensures !flag ==> r == []
    ensures flag ==> r == historyOf(saved, num)
  {
    if flag then historyOf(saved, num) else []
  }

  /** The calling convention: a ReAct input record, or the history plus the user message. */
  function Dispatch(executorType: string, user: string, history: seq<Message>): Invocation {
    if executorType == "ReAct" then ReActInput(user, history)
    else ChatMessages(history + [HumanMessage(user)])
  }

  /** `result[-1].content`. */
  function LastContent(result: Option<seq<Message>>): (r: Result<string, Error>)
    ensures result.None? ==> r == Err(InvocationFailed)
    ensures result == Some([]) ==> r == Err(EmptyAgentResult)
    ensures result.Some? && result.value != [] ==> r == Ok(result.value[|result.value| - 1].content)
  {
    match result
    case None => Err(InvocationFailed)
    case Some(ms) => if ms == [] then Err(EmptyAgentResult) else Ok(ms[|ms| - 1].content)
  }

  /** The rendered user prompt for one output. */
  function UserPrompt(c: OnceCtx, m: map<string, Value>): string {
    c.format(c.userTemplate, m)
  }

  /**
   * One `_run_once`: the system-variable pass, the user-variable pass, the
   * rendered user prompt (logged), then one agent call in the configured
   * convention, whose last message is the output.
   */
  function RunOnceSpec(c: OnceCtx, input: Option<string>): (s: Step)
    ensures |s.userPrompts| <= 1
    ensures !Truthy(input) ==> s.batchValues == []
    ensures s.out.Ok? ==> |s.userPrompts| == 1
  {
    SystemPassLog(c.vars, c.systemVariables, c.sentinel, input);
    var (logged, err) := SystemPass(c.vars, c.systemVariables, c.sentinel, input);
    if err.Some? then Step(logged, [], Err(err.value))
    else
      match Resolve(c.vars, c.userVariables, c.sentinel, input)
      case Err(e) => Step(logged, [], Err(e))
      case Ok(m) =>
        var user := UserPrompt(c, m);
        Step(logged, [user], LastContent(c.invoke(c.agent, Dispatch(c.executorType, user, c.history))))
  }

  /**
   * What one `_run_once` returns and logs: the system pass's batch values
   * always; a failed lookup in either pass is raised before the user prompt
   * is logged; otherwise the rendered user prompt is logged and the agent is
   * called with it, as a ReAct input record with the history for executor
   * type 'ReAct' and as the history followed by the human message otherwise,
   * its last message's content being the output.
   */
  lemma RunOnceOutput(c: OnceCtx, input: Option<string>)
    ensures var s := RunOnceSpec(c, input);
            var p := SystemPass(c.vars, c.systemVariables, c.sentinel, input);
            var m := Resolve(c.vars, c.userVariables, c.sentinel, input);
            s.batchValues == p.0 &&
            (|s.userPrompts| == 1 <==> p.1.None? && m.Ok?) &&
            (p.1.Some? ==> s.userPrompts == [] && s.out == Err(p.1.value)) &&
            (p.1.None? && m.Err? ==> s.userPrompts == [] && s.out == Err(m.error)) &&
            (p.1.None? && m.Ok? ==>
               var user := UserPrompt(c, m.value);
               s.userPrompts == [user] &&
               (c.executorType == "ReAct" ==> s.out == LastContent(c.invoke(c.agent, ReActInput(user, c.history)))) &&
               (c.executorType != "ReAct" ==>
                  s.out == LastContent(c.invoke(c.agent, ChatMessages(c.history + [HumanMessage(user)])))))
  {
  }

  /** The batch sentinel in the user template reads the batch item's variable. */
  lemma BatchSubstitution(c: OnceCtx, input: Option<string>)
    requires Resolve(c.vars, c.userVariables, c.sentinel, input).Ok?
    requires c.sentinel in c.userVariables
    ensures var m := Resolve(c.vars, c.userVariables, c.sentinel, input).value;
            c.sentinel in m &&
            (Truthy(input) ==> input.value in c.vars && m[c.sentinel] == c.vars[input.value]) &&
            (!Truthy(input) ==> c.sentinel in c.vars && m[c.sentinel] == c.vars[c.sentinel])
  {
    ResolveBindings(c.vars, c.userVariables, c.sentinel, input);
    var k :| 0 <= k < |c.userVariables| && c.userVariables[k] == c.sentinel;
  }

  // ------------------------------------------------------------------
  // The result dict and the fan-out (_run)
  // ------------------------------------------------------------------

  /** A Python dict from output key to output text, in insertion order. */
  type ResultDict = seq<(string, string)>

  function Keys(d: ResultDict): (r: seq<string>)
    ensures |r| == |d| && forall i :: 0 <= i < |d| ==> r[i] == d[i].0
    decreases |d|
  {
    if d == [] then [] else [d[0].0] + Keys(d[1..])
  }

  predicate HasKey(d: ResultDict, k: string) {
    exists i :: 0 <= i < |d| && d[i].0 == k
  }

  /** `d[k] = v` on a Python dict. */
  function Put(d: ResultDict, k: string, v: string): ResultDict
    decreases |d|
  {
    if d == [] then [(k, v)]
    else if d[0].0 == k then [(k, v)] + d[1..]
    else [d[0]] + Put(d[1..], k, v)
  }

  /** `d[k] = v` on a key not yet present appends the entry: a new key goes last. */
  lemma {:induction false} PutFresh(d: ResultDict, k: string, v: string)
    requires !HasKey(d, k)
    ensures Put(d, k, v) == d + [(k, v)]
    decreases |d|
  {
    if d != [] {
      assert d[0].0 != k;
      assert !HasKey(d[1..], k);
      PutFresh(d[1..], k, v);
      assert [d[0]] + (d[1..] + [(k, v)]) == d + [(k, v)];
    }
  }

  /** `d[k] = v` on a key already present keeps the key order, overwrites it and nothing else. */
  lemma {:induction false} PutExisting(d: ResultDict, k: string, v: string)
    requires HasKey(d, k)
    ensures var r := Put(d, k, v);
            |r| == |d| && exists i :: 0 <= i < |d| && d[i].0 == k && r == d[i := (k, v)]
    decreases |d|
  {
    if d[0].0 != k {
      var j :| 0 <= j < |d| && d[j].0 == k;
      assert d[1..][j - 1].0 == k;
      PutExisting(d[1..], k, v);
      var i :| 0 <= i < |d[1..]| && d[1..][i].0 == k && Put(d[1..], k, v) == d[1..][i := (k, v)];
      assert Put(d, k, v) == d[i + 1 := (k, v)];
    } else {
      assert Put(d, k, v) == d[0 := (k, v)];
    }
  }

  predicate Distinct(s: seq<string>) {
    forall i, j :: 0 <= i < j < |s| ==> s[i] != s[j]
  }

  /** What `_run` has produced after its loop: audit lists, result dict, error. */
  datatype Fanout = Fanout(batchValues: seq<Value>, userPrompts: seq<string>, ret: ResultDict, err: Option<Error>)

  /** Single mode: one call without a batch item, stored under 'output'. */
  function SingleRun(c: OnceCtx): (f: Fanout)
    ensures f.batchValues == []
    ensures f.err.None? ==> RunOnceSpec(c, None).out.Ok? && |f.userPrompts| == 1 && Keys(f.ret) == ["output"] &&
                            f.ret == [("output", RunOnceSpec(c, None).out.value)]
    ensures f.err.Some? ==> f.ret == [] && RunOnceSpec(c, None).out == Err(f.err.value)
  {
    var s := RunOnceSpec(c, None);
    match s.out
    case Ok(v) => Fanout(s.batchValues, s.userPrompts, [("output", v)], None)
    case Err(e) => Fanout(s.batchValues, s.userPrompts, [], Some(e))
  }

  /** The outcome of running each batch item on its own. */
  function Steps(c: OnceCtx, batch: seq<string>): (r: seq<Step>)
    ensures |r| == |batch|
    ensures forall i :: 0 <= i < |batch| ==> r[i] == RunOnceSpec(c, Some(batch[i]))
  {
    seq(|batch|, i requires 0 <= i < |batch| => RunOnceSpec(c, Some(batch[i])))
  }

  /**
   * Batch mode after the first `n` items, given each item's step: item `i`
   * is stored under `outputKeys[i]`; the loop stops at the first error,
   * including an `output[i]` past the end of the output list.
   */
  function BatchFold(steps: seq<Step>, outputKeys: seq<string>, n: nat): (f: Fanout)
    requires n <= |steps|
    ensures f.err.None? ==> n <= |outputKeys| && forall i :: 0 <= i < n ==> steps[i].out.Ok?
    decreases n
  {
    if n == 0 then Fanout([], [], [], None)
    else
      var prev := BatchFold(steps, outputKeys, n - 1);
      if prev.err.Some? then prev
      else if n - 1 >= |outputKeys| then prev.(err := Some(OutputIndexOutOfRange(n - 1)))
      else
        var s := steps[n - 1];
        match s.out
        case Ok(v) =>
          Fanout(prev.batchValues + s.batchValues, prev.userPrompts + s.userPrompts,
                 Put(prev.ret, outputKeys[n - 1], v), None)
        case Err(e) =>
          Fanout(prev.batchValues + s.batchValues, prev.userPrompts + s.userPrompts, prev.ret, Some(e))
  }

  /** Batch mode: `_run_once(batch[i], ..., output[i].key)` for each item in order. */
  function BatchRun(c: OnceCtx, batch: seq<string>, outputKeys: seq<string>): Fanout {
    BatchFold(Steps(c, batch), outputKeys, |batch|)
  }

  /**
   * A fan-out that succeeded over `n` items succeeded over the first `n - 1`,
   * had an output key for item `n - 1`, and extended each part by that item.
   */
  lemma BatchFoldGrows(steps: seq<Step>, outputKeys: seq<string>, n: nat)
    requires 0 < n <= |steps|
    requires BatchFold(steps, outputKeys, n).err.None?
    ensures var prev := BatchFold(steps, outputKeys, n - 1);
            var f := BatchFold(steps, outputKeys, n);
            prev.err.None? && n - 1 < |outputKeys| && steps[n - 1].out.Ok? &&
            f.batchValues == prev.batchValues + steps[n - 1].batchValues &&
            f.userPrompts == prev.userPrompts + steps[n - 1].userPrompts &&
            f.ret == Put(prev.ret, outputKeys[n - 1], steps[n - 1].out.value)
  {
  }

  /** One more item, in each of its three outcomes. */
  lemma BatchFoldNext(steps: seq<Step>, outputKeys: seq<string>, n: nat)
    requires 0 < n <= |steps|
    requires BatchFold(steps, outputKeys, n - 1).err.None?
    ensures var prev := BatchFold(steps, outputKeys, n - 1);
            var s := steps[n - 1];
            var f := BatchFold(steps, outputKeys, n);
            (n - 1 >= |outputKeys| ==> f == prev.(err := Some(OutputIndexOutOfRange(n - 1)))) &&
            (n - 1 < |outputKeys| && s.out.Err? ==>
               f == Fanout(prev.batchValues + s.batchValues, prev.userPrompts + s.userPrompts,
                           prev.ret, Some(s.out.error))) &&
            (n - 1 < |outputKeys| && s.out.Ok? ==>
               f == Fanout(prev.batchValues + s.batchValues, prev.userPrompts + s.userPrompts,
                           Put(prev.ret, outputKeys[n - 1], s.out.value), None))
  {
  }

  /** Once the fan-out has failed, later items change nothing. */
  lemma {:induction false} BatchFoldStops(steps: seq<Step>, outputKeys: seq<string>, n: nat, m: nat)
    requires n <= m <= |steps|
    requires BatchFold(steps, outputKeys, n).err.Some?
    ensures BatchFold(steps, outputKeys, m) == BatchFold(steps, outputKeys, n)
    decreases m
  {
    if m > n { BatchFoldStops(steps, outputKeys, n, m - 1); }
  }

  /** Items whose calls all succeed, each with an output key, make a successful fan-out. */
  lemma {:induction false} BatchFoldOk(steps: seq<Step>, outputKeys: seq<string>, n: nat)
    requires n <= |steps| && n <= |outputKeys|
    requires forall i :: 0 <= i < n ==> steps[i].out.Ok?
    ensures BatchFold(steps, outputKeys, n).err.None?
    decreases n
  {
    if n > 0 { BatchFoldOk(steps, outputKeys, n - 1); }
  }

  /**
   * Exact audit lengths and order: when every call that succeeds logged one
   * prompt, a successful fan-out over `n` items logged exactly `n` user
   * prompts, the `i`-th being item `i`'s.
   */
  lemma {:induction false} BatchFoldPrompts(steps: seq<Step>, outputKeys: seq<string>, n: nat)
    requires n <= |steps|
    requires forall i :: 0 <= i < |steps| && steps[i].out.Ok? ==> |steps[i].userPrompts| == 1
    requires BatchFold(steps, outputKeys, n).err.None?
    ensures var f := BatchFold(steps, outputKeys, n);
            |f.userPrompts| == n &&
            forall i :: 0 <= i < n ==> f.userPrompts[i] == steps[i].userPrompts[0]
    decreases n
  {
    if n > 0 {
      BatchFoldGrows(steps, outputKeys, n);
      BatchFoldPrompts(steps, outputKeys, n - 1);
      var prev := BatchFold(steps, outputKeys, n - 1).userPrompts;
      assert forall i :: 0 <= i < n - 1 ==> (prev + steps[n - 1].userPrompts)[i] == prev[i];
    }
  }

  /** A key that none of the dict's entries carries is not in the dict. */
  lemma FreshKey(d: ResultDict, k: string)
    requires forall i :: 0 <= i < |d| ==> d[i].0 != k
    ensures !HasKey(d, k)
  {
  }

  /**
   * With distinct output keys, a successful fan-out yields exactly the
   * first `n` keys in declared order, each holding its own item's output.
   */
  lemma {:induction false} BatchFoldResults(steps: seq<Step>, outputKeys: seq<string>, n: nat)
    requires n <= |steps| && n <= |outputKeys|
    requires forall i, j :: 0 <= i < j < n ==> outputKeys[i] != outputKeys[j]
    requires BatchFold(steps, outputKeys, n).err.None?
    ensures var f := BatchFold(steps, outputKeys, n);
            |f.ret| == n &&
            forall i :: 0 <= i < n ==> f.ret[i] == (outputKeys[i], steps[i].out.value)
    decreases n
  {
    if n > 0 {
      var m := n - 1;
      BatchFoldGrows(steps, outputKeys, n);
      BatchFoldResults(steps, outputKeys, m);
      var prev := BatchFold(steps, outputKeys, m).ret;
      var k := outputKeys[m];
      assert forall i :: 0 <= i < m ==> prev[i].0 == outputKeys[i];
      FreshKey(prev, k);
      PutFresh(prev, k, steps[m].out.value);
      var ret := prev + [(k, steps[m].out.value)];
      assert Put(prev, k, steps[m].out.value) == ret;
      assert forall i :: 0 <= i < m ==> ret[i] == prev[i];
    }
  }

  /** A successful fan-out logged each item's batch values, item after item. */
  lemma {:induction false} BatchFoldValues(steps: seq<Step>, outputKeys: seq<string>, n: nat)
    requires n <= |steps|
    requires BatchFold(steps, outputKeys, n).err.None?
    ensures (forall i :: 0 <= i < n ==> steps[i].batchValues == []) ==>
              BatchFold(steps, outputKeys, n).batchValues == []
    ensures (forall i :: 0 <= i < n ==> |steps[i].batchValues| == 1) ==>
              var f := BatchFold(steps, outputKeys, n);
              |f.batchValues| == n &&
              forall i :: 0 <= i < n ==> f.batchValues[i] == steps[i].batchValues[0]
    decreases n
  {
    if n > 0 {
      BatchFoldGrows(steps, outputKeys, n);
      BatchFoldValues(steps, outputKeys, n - 1);
      var prev := BatchFold(steps, outputKeys, n - 1).batchValues;
      assert forall i :: 0 <= i < |prev| ==> (prev + steps[n - 1].batchValues)[i] == prev[i];
    }
  }

  /**
   * What a batch item logs: when the system prompt mentions the batch
   * sentinel once, a successful call logs the value of its (truthy) batch
   * variable; when it does not mention it, nothing.
   */
  lemma RunOnceBatchValue(c: OnceCtx, input: Option<string>)
    requires RunOnceSpec(c, input).out.Ok?
    ensures Count(c.systemVariables, c.sentinel) == 0 ==> RunOnceSpec(c, input).batchValues == []
    ensures Count(c.systemVariables, c.sentinel) == 1 && Truthy(input) ==>
              input.value in c.vars && RunOnceSpec(c, input).batchValues == [c.vars[input.value]]
  {
    SystemPassLog(c.vars, c.systemVariables, c.sentinel, input);
    var p := SystemPass(c.vars, c.systemVariables, c.sentinel, input);
    assert p.1.None? && RunOnceSpec(c, input).batchValues == p.0;
    if Count(c.systemVariables, c.sentinel) == 1 && Truthy(input) {
      assert |p.0| == 1;
      assert input.value in c.vars && p.0[0] == c.vars[input.value];
    }
  }

  /**
   * More batch items than output keys: when the calls for the first
   * `len(output)` items succeed, the next item fails on `output[k]` with
   * index k = `len(output)` before its call is made, so exactly k user
   * prompts were logged.
   */
  lemma BatchRunOutputIndex(c: OnceCtx, batch: seq<string>, outputKeys: seq<string>)
    requires |outputKeys| < |batch|
    requires forall i :: 0 <= i < |outputKeys| ==> RunOnceSpec(c, Some(batch[i])).out.Ok?
    ensures var f := BatchRun(c, batch, outputKeys);
            f.err == Some(OutputIndexOutOfRange(|outputKeys|)) && |f.userPrompts| == |outputKeys|
  {
    var steps := Steps(c, batch);
    var k := |outputKeys|;
    forall i | 0 <= i < k ensures steps[i].out.Ok? {
      assert steps[i] == RunOnceSpec(c, Some(batch[i]));
    }
    BatchFoldOk(steps, outputKeys, k);
    BatchFoldPrompts(steps, outputKeys, k);
    BatchFoldNext(steps, outputKeys, k + 1);
    BatchFoldStops(steps, outputKeys, k + 1, |steps|);
  }

  /**
   * Batch mode end to end: a successful `_run` loop over `batch` logged one
   * user prompt per item in order; with distinct output keys its result has
   * exactly the declared keys in order; with the sentinel once in the system
   * prompt and non-empty batch variables, the batch-value log lists each
   * item's value in item order.
   */
  lemma BatchRunAudit(c: OnceCtx, batch: seq<string>, outputKeys: seq<string>)
    requires BatchRun(c, batch, outputKeys).err.None?
    ensures |batch| <= |outputKeys|
    ensures var f := BatchRun(c, batch, outputKeys);
            |f.userPrompts| == |batch| &&
            forall i :: 0 <= i < |batch| ==>
              RunOnceSpec(c, Some(batch[i])).out.Ok? &&
              f.userPrompts[i] == RunOnceSpec(c, Some(batch[i])).userPrompts[0]
    ensures Distinct(outputKeys[..|batch|]) ==>
              var f := BatchRun(c, batch, outputKeys);
              Keys(f.ret) == outputKeys[..|batch|] &&
              forall i :: 0 <= i < |batch| ==> f.ret[i].1 == RunOnceSpec(c, Some(batch[i])).out.value
    ensures Count(c.systemVariables, c.sentinel) == 0 ==> BatchRun(c, batch, outputKeys).batchValues == []
    ensures Count(c.systemVariables, c.sentinel) == 1 && (forall i :: 0 <= i < |batch| ==> batch[i] != "") ==>
              var f := BatchRun(c, batch, outputKeys);
              |f.batchValues| == |batch| &&
              forall i :: 0 <= i < |batch| ==> batch[i] in c.vars && f.batchValues[i] == c.vars[batch[i]]
  {
    var steps := Steps(c, batch);
    var n := |batch|;
    BatchFoldPrompts(steps, outputKeys, n);
    if Distinct(outputKeys[..n]) {
      forall i, j | 0 <= i < j < n ensures outputKeys[i] != outputKeys[j] {
        assert outputKeys[..n][i] == outputKeys[i] && outputKeys[..n][j] == outputKeys[j];
      }
      BatchFoldResults(steps, outputKeys, n);
      var f := BatchRun(c, batch, outputKeys);
      assert Keys(f.ret) == outputKeys[..n];
    }
    forall i | 0 <= i < n ensures steps[i].out.Ok? {
    }
    forall i | 0 <= i < n ensures RunOnceSpec(c, Some(batch[i])).out.Ok? {
      assert steps[i] == RunOnceSpec(c, Some(batch[i]));
    }
    forall i | 0 <= i < n
      ensures Count(c.systemVariables, c.sentinel) == 0 ==> steps[i].batchValues == []
      ensures Count(c.systemVariables, c.sentinel) == 1 && batch[i] != "" ==>
                batch[i] in c.vars && steps[i].batchValues == [c.vars[batch[i]]]
    {
      RunOnceBatchValue(c, Some(batch[i]));
    }
    BatchFoldValues(steps, outputKeys, n);
  }

  /** The AI turns saved for a result dict, one per entry in dict order. */
  function AiTurns(ret: ResultDict): (r: seq<Message>)
    ensures |r| == |ret|
    ensures forall i :: 0 <= i < |ret| ==> r[i] == Message("AI", ret[i].1)
    decreases |ret|
  {
    if ret == [] then [] else [Message("AI", ret[0].1)] + AiTurns(ret[1..])
  }
}
