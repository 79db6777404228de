/**
 * The values the workflow agent node (src/backend/bisheng/workflow/nodes/agent/agent.py)
 * passes between itself and its collaborators: the exceptions it can raise,
 * the LLM handle, knowledge-base records, the parameter dictionaries given to
 * the vector and keyword stores, tools, chat messages and the agent object.
 */
module AgentTypes {
  import opened Wrappers
  import opened PyValues

  /** The exceptions the node raises or lets escape. */
  datatype Error =
    | EmptyModelList                    // the assistant model list is empty
    | ModelNotInList                    // the selected model is not in that list
    | UnknownVariable(name: string)     // the workflow state has no such variable
    | KnowledgeNotFound(key: string)    // no knowledge base with that id
    | NotADict(name: string)            // `.get` on file metadata that is not a dict
    | NotSubscriptable                  // `v['file_id']` on a value that is not a dict
    | MissingKey(key: string)           // `d[key]` on a dict without that key
    | NoDefaultEmbedding                // no default embedding model is configured
    | InvalidToolId(toolKey: Value)       // `int(key)` fails on a tool key
    | OutputIndexOutOfRange(index: nat) // `output[index]` past the end in batch mode
    | InvocationFailed                  // the agent runtime raised
    | EmptyAgentResult                  // `result[-1]` on an empty message list

  /** The LLM handle the node obtains once, by model id and temperature. */
  datatype Llm = Llm(modelId: string, temperature: real)

  datatype Embedding = Embedding(model: string)

  /** A persistent knowledge base as returned by the knowledge lookup. */
  datatype Knowledge = Knowledge(
    id: int, name: string, description: string,
    collectionName: string, indexName: string, model: string)

  /** One entry of the operator's assistant model list. */
  datatype AssistantLlm = AssistantLlm(
    modelId: string, agentExecutorType: string,
    knowledgeMaxContent: int, knowledgeSortIndex: bool)

  /** The `knowledge_retriever` dict: max_content and sort_by_source_and_index. */
  datatype RetrieverConfig = RetrieverConfig(maxContent: int, sortBySourceAndIndex: bool)

  /** A filter restricting `field` to the listed values. */
  datatype TermsFilter = TermsFilter(field: string, values: seq<Value>)

  /**
   * The params dict handed to the Milvus vector store: collection_name,
   * embedding, and the optional partition_key and metadata_expr entries.
   */
  datatype VectorParams = VectorParams(
    collectionName: string, embedding: Embedding,
    partitionKey: Option<Value>, metadataExpr: Option<TermsFilter>)

  /** The params dict handed to the Elasticsearch keyword store. */
  datatype KeywordParams = KeywordParams(indexName: string, postFilter: Option<TermsFilter>)

  /** The `bisheng_rag` tool parameters, one per knowledge key. */
  datatype RagToolSpec = RagToolSpec(
    name: string, description: string,
    vectorStore: VectorParams, keywordStore: KeywordParams,
    llm: Llm, retriever: RetrieverConfig)

  datatype Tool = FunctionTool(toolId: int, llm: Llm) | RagTool(spec: RagToolSpec)

  datatype Message = Message(role: string, content: string)

  function HumanMessage(content: string): Message { Message("human", content) }

  /** The two calling conventions of the agent runtime. */
  datatype Invocation =
    | ReActInput(input: string, chatHistory: seq<Message>)
    | ChatMessages(messages: seq<Message>)

  /** The constructed assistant: executor name, tools, LLM and system prompt. */
  datatype Agent = Agent(executor: Option<string>, tools: seq<Tool>, llm: Llm, assistantMessage: string)

  /** `agent_executor_dict.get(t)`. */
  function ExecutorName(t: string): (r: Option<string>)
    ensures r.Some? <==> t == "ReAct" || t == "function call"
  {
    if t == "ReAct" then Some("get_react_agent_executor")
    else if t == "function call" then Some("get_openai_functions_agent_executor")
    else None
  }

  /** `graph_state.get_variable_by_str(name)`. */
  function Lookup(vars: map<string, Value>, name: string): (r: Result<Value, Error>)
    ensures r.Ok? <==> name in vars
    ensures r.Ok? ==> r.value == vars[name]
    ensures r.Err? ==> r.error == UnknownVariable(name)
  {
    if name in vars then Ok(vars[name]) else Err(UnknownVariable(name))
  }
}
