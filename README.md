# Agent workflow node and conversation tag cache — a Dafny model

This project models two parts of the bisheng repository.

**The workflow agent node** (`AgentNode` in
`src/backend/bisheng/workflow/nodes/agent/agent.py`). When it is created, the
node reads its parameters. Its `_run` clears three audit lists (batch values,
system prompts, user prompts). It resolves the system-prompt variables from the
workflow state, renders the system prompt, and builds the agent once
(`_init_agent`). Building the agent means:

- choosing the assistant model whose id is configured;
- setting the executor type;
- turning the configured tool ids into function tools;
- turning each knowledge reference into a `bisheng_rag` retrieval tool. A
  reference is either a knowledge base or a temporary-file variable, and each
  gets a vector store and a keyword store.

In single mode `_run` then makes one `_run_once` call stored under `'output'`.
In batch mode it makes one call per batch item, stored under the matching
output key. Each `_run_once` resolves the system and user variables. The batch
sentinel `<node id>.batch_variable` is read from the batch item's variable, and
the values read for it in the system pass are logged. The call renders and
logs the user prompt and invokes the agent in one of two conventions: ReAct
input, or chat messages. The content of the last message is the result. When
the node outputs to the user, every result is saved as an `'AI'` chat turn.
`parse_log` reports the audit lists.

**The conversation tag cache** (`useUpdateTagsInConvo.ts` in the web client).
The query cache holds one entry per conversation and a paged list of all
conversations.

- `updateTagsInConversation` sets one conversation's tags in both places.
- `replaceTagsInAllConversations` renames one tag in every page of a deep copy
  of the list. It collects the ids of the conversations it changed, stores the
  copy, and then renames the tag in each collected id's own entry.

Layout:

- `wrappers.dfy`: `Option` and `Result`.
- `py_values.dfy`: the Python values the node reads, and the parts of `int()`,
  `str()` and `dict.get` it uses.
- `agent_types.dfy`: the error cases, and the records for models, stores,
  tools, messages and the agent.
- `retrieval.dfy`: tool names, descriptions, and store parameters for one
  knowledge reference.
- `agent_spec.dfy`: pure specification functions for model selection, tool
  assembly, variable resolution, one agent call and the batch fan-out, with
  the lemmas about them.
- `agent_node.dfy`: the node as a class. Its methods `InitAgent`,
  `InitKnowledgeTools`, `RunOnce` and `Run` are loops and field updates, each
  proved equal to a specification function. Whole-run properties are lemmas
  about `RunSpec`.
- `convo_tags.dfy`: the query cache as a class, and the two hook operations as
  methods proved against the rename functions.

Every Python `raise` is an `Err` result. State changed before the raise stays
changed, as in the source. For example, `_init_agent` sets the executor type
before it builds tools, so a tool error leaves the new executor type and no
agent.

## Model

Paths are relative to the repository root. `agent.py` stands for
`src/backend/bisheng/workflow/nodes/agent/agent.py`.

| member | source | states |
|---|---|---|
| PyValues.ToInt | src/backend/bisheng/workflow/nodes/agent/agent.py:99 | `int(v)` on a tool key: ints pass through, booleans are 1/0, strings are parsed, lists/dicts/None are rejected |
| PyValues.IsDigit | src/backend/bisheng/workflow/nodes/agent/agent.py:99 | definition: an ASCII digit, the only digits `int()` is modelled on; used by PyValues.ParseInt |
| PyValues.AllDigits | src/backend/bisheng/workflow/nodes/agent/agent.py:99 | definition: every character is an ASCII digit; used by PyValues.ParseInt and NatDigits |
| PyValues.DigitChar | src/backend/bisheng/workflow/nodes/agent/agent.py:99 | the character of a digit below ten is an ASCII digit with that value |
| PyValues.NatDigits | src/backend/bisheng/workflow/nodes/agent/agent.py:99 | the decimal digits of a natural number are non-empty ASCII digits with no leading zero |
| PyValues.Decimal | src/backend/bisheng/workflow/nodes/agent/agent.py:99 | definition of `str(n)` for an int; its properties are in PyValues.ParseIntOfDecimal |
| PyValues.DigitsValue | src/backend/bisheng/workflow/nodes/agent/agent.py:99 | definition of the number a digit string denotes; its properties are in PyValues.DigitsValueOfNatDigits and ParseIntOfDecimal |
| PyValues.DigitsValueOfNatDigits | src/backend/bisheng/workflow/nodes/agent/agent.py:99 | reading back the decimal digits of a natural number gives that number |
| PyValues.ParseInt | src/backend/bisheng/workflow/nodes/agent/agent.py:99 | definition of `int()` on a string; its properties are in PyValues.ParseIntOfDecimal and ToInt |
| PyValues.ParseIntOfDecimal | src/backend/bisheng/workflow/nodes/agent/agent.py:99 | `int(str(n)) == n` for every integer, negative ones included, so a tool id written as a decimal string is read back unchanged |
| PyValues.DictGet | src/backend/bisheng/workflow/nodes/agent/agent.py:118 | `d.get(k)` finds a value exactly when some entry has key `k`, and the value it returns is from such an entry |
| PyValues.PyStr | src/backend/bisheng/workflow/nodes/agent/agent.py:118 | f-string interpolation: a string is inserted as is, `None` as the text `None` |
| PyValues.PyRepr | src/backend/bisheng/workflow/nodes/agent/agent.py:118 | definition of `repr` for a value that is not a string: None, booleans, ints in decimal, quoted strings, lists and dicts; used by PyValues.PyStr |
| PyValues.ReprItems | src/backend/bisheng/workflow/nodes/agent/agent.py:118 | definition: the items of a list, each in `repr`, joined by ", "; used by PyValues.PyRepr |
| PyValues.ReprEntries | src/backend/bisheng/workflow/nodes/agent/agent.py:118 | definition: the entries of a dict as `'key': repr(value)`, joined by ", "; used by PyValues.PyRepr |
| AgentTypes.HumanMessage | src/backend/bisheng/workflow/nodes/agent/agent.py:270 | definition of `HumanMessage(content=user)`; its use is stated in AgentSpec.RunOnceOutput |
| AgentTypes.ExecutorName | src/backend/bisheng/workflow/nodes/agent/agent.py:19-22 | `agent_executor_dict.get` knows exactly `'ReAct'` and `'function call'` |
| AgentTypes.Lookup | src/backend/bisheng/workflow/nodes/agent/agent.py:197 | a workflow variable is found exactly when it exists, with its value; otherwise it fails with that variable's name |
| Retrieval.StartsWith | src/backend/bisheng/workflow/nodes/agent/agent.py:143 | definition of `str.startswith`; used by Retrieval.InitKnowledgeMilvus and FileToolName |
| Retrieval.RemoveChar | src/backend/bisheng/workflow/nodes/agent/agent.py:117 | `s.replace(c, "")` leaves no `c`, adds no character, never lengthens, and is the identity when `c` is absent |
| Retrieval.RemoveCharCommutes | src/backend/bisheng/workflow/nodes/agent/agent.py:117 | stripping two characters gives the same string in either order |
| Retrieval.RemoveCharAppend | src/backend/bisheng/workflow/nodes/agent/agent.py:117 | stripping a character distributes over concatenation |
| Retrieval.KnowledgeToolName | src/backend/bisheng/workflow/nodes/agent/agent.py:111 | the knowledge tool name is `knowledge_` followed by exactly the key |
| Retrieval.KnowledgeToolNameInjective | src/backend/bisheng/workflow/nodes/agent/agent.py:111 | distinct knowledge-base ids give distinct tool names |
| Retrieval.FileToolName | src/backend/bisheng/workflow/nodes/agent/agent.py:117 | a file tool name starts with `knowledge_`, contains no `.` or `#`, and is `knowledge_` + key when the key has neither |
| Retrieval.FileToolNameEitherOrder | src/backend/bisheng/workflow/nodes/agent/agent.py:117 | the two `replace` calls can be applied in either order |
| Retrieval.FileToolNamesCanCollide | src/backend/bisheng/workflow/nodes/agent/agent.py:117 | two different variable names (one with an extra `.`) give the same file tool name, so names are not unique |
| Retrieval.KnowledgeDescription | src/backend/bisheng/workflow/nodes/agent/agent.py:112 | the description is the knowledge name, `:`, then its description |
| Retrieval.FileDescription | src/backend/bisheng/workflow/nodes/agent/agent.py:118 | the description is `file name: ` followed by the `source` entry, or `None` when it is missing |
| Retrieval.FileId | src/backend/bisheng/workflow/nodes/agent/agent.py:152 | `file_metadata['file_id']`: the entry's value; a missing key and a non-dict are two distinct errors |
| Retrieval.InitKnowledgeMilvus | src/backend/bisheng/workflow/nodes/agent/agent.py:137-145 | collection and embedding come from the knowledge base; a partition key (the knowledge id) is set exactly when the collection name starts with `partition` |
| Retrieval.InitFileMilvus | src/backend/bisheng/workflow/nodes/agent/agent.py:147-159 | a missing default embedding fails first; otherwise it succeeds exactly when the file id exists, using the temporary collection, the workflow id as partition and a `file_id` filter |
| Retrieval.InitKnowledgeEs | src/backend/bisheng/workflow/nodes/agent/agent.py:166-170 | the knowledge base's index, with no filter |
| Retrieval.InitFileEs | src/backend/bisheng/workflow/nodes/agent/agent.py:172-181 | the temporary index, post-filtered on `metadata.file_id`; fails exactly when the file id does |
| Retrieval.KnowledgeToolSpec | src/backend/bisheng/workflow/nodes/agent/agent.py:108-130 | definition of one iteration of the knowledge loop; its properties are in Retrieval.KnowledgeToolSpecMeaning and FileToolOfMetadata |
| Retrieval.KnowledgeToolSpecMeaning | src/backend/bisheng/workflow/nodes/agent/agent.py:108-132 | one knowledge reference, both kinds: when it succeeds and every error it can raise, with the name, description, stores, llm and retriever settings of the tool parameters. A knowledge base gets the Milvus and Elasticsearch parameters built from it: the embedding chosen for its model, no metadata filter, and the partition key set exactly when the collection is partitioned. A file variable raises a missing `file_id` key once the default embedding exists |
| Retrieval.FileToolOfMetadata | src/backend/bisheng/workflow/nodes/agent/agent.py:115-121 | file metadata `{file_id, source}` under variable `p.q` yields a tool named `knowledge_pq`, described as `file name: ` plus its source, with both stores filtered on its file id and the node's llm and retriever settings |
| Retrieval.FileToolNameDropsDot | src/backend/bisheng/workflow/nodes/agent/agent.py:117 | the tool for variable `p.q` is named `knowledge_pq`: the dot is dropped |
| AgentSpec.Matching | src/backend/bisheng/workflow/nodes/agent/agent.py:75-77 | the comprehension keeps only listed models with the configured id; it is empty exactly when none matches; its head is the first match in list order |
| AgentSpec.SelectModel | src/backend/bisheng/workflow/nodes/agent/agent.py:72-80 | an empty list and a missing id are the only two errors, each raised exactly when it applies; on success the first model with that id |
| AgentSpec.ToolIds | src/backend/bisheng/workflow/nodes/agent/agent.py:99 | all keys convert, in order and one for one, or the first key `int` rejects is reported; succeeds whenever every key converts |
| AgentSpec.RetrieverOf | src/backend/bisheng/workflow/nodes/agent/agent.py:82-85 | definition of the `knowledge_retriever` dict taken from the selected model; its use is stated in AgentNode.InitAgentSpec and Retrieval.KnowledgeToolSpecMeaning |
| AgentSpec.InitTools | src/backend/bisheng/workflow/nodes/agent/agent.py:97-102 | no function tools without a tool list; otherwise the tools loaded for the converted ids, or the conversion error |
| AgentSpec.RagSpecs | src/backend/bisheng/workflow/nodes/agent/agent.py:104-132 | definition; its properties are in AgentSpec.RagSpecsPerKey, RagSpecsFirstError and RagSpecsStops |
| AgentSpec.LoadAll | src/backend/bisheng/workflow/nodes/agent/agent.py:131 | definition: the tools `load_tools` returns for each spec, concatenated in key order; used by AgentSpec.KnowledgeTools |
| AgentSpec.KnowledgeTools | src/backend/bisheng/workflow/nodes/agent/agent.py:104-134 | definition; its properties are in AgentSpec.RagSpecsPerKey and RagSpecsFirstError, and AgentNode.AgentNode.InitKnowledgeTools computes it |
| AgentSpec.RagSpecsPerKey | src/backend/bisheng/workflow/nodes/agent/agent.py:108-132 | a successful knowledge loop yields one tool specification per key, in key order, each being what its key yields |
| AgentSpec.RagSpecsFirstError | src/backend/bisheng/workflow/nodes/agent/agent.py:108-132 | a failed knowledge loop raises the error of the first failing key, and every earlier key succeeded |
| AgentSpec.RagSpecsStops | src/backend/bisheng/workflow/nodes/agent/agent.py:108-121 | once a key fails, later keys do not change the outcome |
| AgentSpec.AssembleTools | src/backend/bisheng/workflow/nodes/agent/agent.py:87-89 | the agent's tools are the function tools followed by the knowledge tools; a function-tool error wins; it succeeds exactly when both parts do |
| AgentSpec.Truthy | src/backend/bisheng/workflow/nodes/agent/agent.py:236-245 | definition of the truthiness test on `input_variable`; its properties are in AgentSpec.SystemPassLog, BatchSubstitution and RunOnceSpec |
| AgentSpec.SourceOf | src/backend/bisheng/workflow/nodes/agent/agent.py:236-240 | definition; its properties are in AgentSpec.ResolveBindings and BatchSubstitution |
| AgentSpec.Resolve | src/backend/bisheng/workflow/nodes/agent/agent.py:196-197 | definition; its properties are in AgentSpec.ResolveSucceeds, ResolveBindings, ResolveFirstError and ResolveStops |
| AgentSpec.ResolveSucceeds | src/backend/bisheng/workflow/nodes/agent/agent.py:196-197 | building `variable_map` succeeds exactly when every variable's source (the batch item for the sentinel) exists |
| AgentSpec.ResolveBindings | src/backend/bisheng/workflow/nodes/agent/agent.py:244-248 | a built `variable_map` has exactly the template's variables as keys, each bound to its source's value |
| AgentSpec.ResolveFirstError | src/backend/bisheng/workflow/nodes/agent/agent.py:244-248 | a failed build reports the first variable whose source is missing; all earlier ones existed |
| AgentSpec.ResolveStops | src/backend/bisheng/workflow/nodes/agent/agent.py:196-197 | once a lookup fails, later variables do not change the outcome |
| AgentSpec.Count | src/backend/bisheng/workflow/nodes/agent/agent.py:235-240 | definition: how often the sentinel occurs among the system variables; its properties are in AgentSpec.SystemPassLog and RunOnceBatchValue |
| AgentSpec.SystemPass | src/backend/bisheng/workflow/nodes/agent/agent.py:235-240 | definition; its properties are in AgentSpec.SystemPassLog, SystemPassFailsLikeResolve and SystemPassStops |
| AgentSpec.SystemPassLog | src/backend/bisheng/workflow/nodes/agent/agent.py:235-240 | without a truthy batch item nothing is logged; with one, a successful pass logs that item's value once per sentinel occurrence |
| AgentSpec.SystemPassFailsLikeResolve | src/backend/bisheng/workflow/nodes/agent/agent.py:235-240 | the system pass fails exactly when resolving those variables fails, and with the same error |
| AgentSpec.SystemPassStops | src/backend/bisheng/workflow/nodes/agent/agent.py:235-240 | after a failed lookup the system pass logs nothing more |
| AgentSpec.LastContent | src/backend/bisheng/workflow/nodes/agent/agent.py:273 | `result[-1].content`: the last message's content; an empty result and a raising call are errors |
| AgentSpec.Dispatch | src/backend/bisheng/workflow/nodes/agent/agent.py:263-271 | definition; its properties are in AgentSpec.RunOnceOutput |
| AgentSpec.UserPrompt | src/backend/bisheng/workflow/nodes/agent/agent.py:249 | definition; its properties are in AgentSpec.RunOnceOutput and BatchSubstitution |
| AgentSpec.RunOnceSpec | src/backend/bisheng/workflow/nodes/agent/agent.py:228-273 | one call logs at most one user prompt (exactly one when it succeeds) and no batch value without a truthy item |
| AgentSpec.RunOnceOutput | src/backend/bisheng/workflow/nodes/agent/agent.py:232-273 | what one call returns and logs. It keeps the system pass's batch values. It logs a user prompt exactly when both variable passes succeed. A failed lookup raises that pass's error before any prompt is logged. Otherwise it logs the rendered prompt and calls the agent: for 'ReAct' with an input record of the prompt and the history, for other executor types with the history followed by the human message. The output is the content of the last message returned |
| AgentSpec.HistoryFor | src/backend/bisheng/workflow/nodes/agent/agent.py:251-253 | the chat history is empty when the history flag is off, and otherwise is `get_history_list(num)` applied to the saved history. That call is a parameter of the model, so nothing constrains what it returns |
| AgentSpec.BatchSubstitution | src/backend/bisheng/workflow/nodes/agent/agent.py:243-248 | the sentinel in the user template is bound to the batch item's variable when the item is truthy, and to the sentinel variable itself otherwise |
| AgentSpec.Keys | src/backend/bisheng/workflow/nodes/agent/agent.py:212 | the keys of the result dict, one per entry, in insertion order |
| AgentSpec.HasKey | src/backend/bisheng/workflow/nodes/agent/agent.py:203-207 | definition: a key is in the result dict; used by AgentSpec.PutFresh and PutExisting |
| AgentSpec.Distinct | src/backend/bisheng/workflow/nodes/agent/agent.py:205-207 | definition: the output keys are pairwise different; the hypothesis of AgentSpec.BatchFoldResults and BatchRunAudit |
| AgentSpec.FreshKey | src/backend/bisheng/workflow/nodes/agent/agent.py:203-207 | a key that no entry carries is not in the result dict |
| AgentSpec.Put | src/backend/bisheng/workflow/nodes/agent/agent.py:203-207 | definition; its properties are in AgentSpec.PutFresh and PutExisting |
| AgentSpec.PutFresh | src/backend/bisheng/workflow/nodes/agent/agent.py:207 | `ret[k] = v` with a new key appends the entry at the end |
| AgentSpec.PutExisting | src/backend/bisheng/workflow/nodes/agent/agent.py:207 | `ret[k] = v` with a present key keeps length and order and overwrites that one entry |
| AgentSpec.SingleRun | src/backend/bisheng/workflow/nodes/agent/agent.py:202-203 | single mode logs no batch value; on success the result is exactly `{'output': <the call's output>}`, and on failure it is empty with the call's error |
| AgentSpec.Steps | src/backend/bisheng/workflow/nodes/agent/agent.py:205-207 | definition; its properties are in AgentSpec.BatchFoldPrompts, BatchFoldResults and BatchRunAudit |
| AgentSpec.BatchFold | src/backend/bisheng/workflow/nodes/agent/agent.py:205-207 | definition; its properties are in AgentSpec.BatchFoldGrows, BatchFoldNext, BatchFoldOk, BatchFoldStops, BatchFoldPrompts, BatchFoldResults and BatchFoldValues |
| AgentSpec.BatchRun | src/backend/bisheng/workflow/nodes/agent/agent.py:205-207 | definition; its properties are in AgentSpec.BatchRunAudit and BatchRunOutputIndex |
| AgentSpec.BatchFoldGrows | src/backend/bisheng/workflow/nodes/agent/agent.py:205-207 | a fan-out that succeeded over n items succeeded over the first n - 1, had a key for item n - 1, and extended each part by that item |
| AgentSpec.BatchFoldNext | src/backend/bisheng/workflow/nodes/agent/agent.py:205-207 | one more item, in each outcome: a missing `output[i]` fails with index i and logs nothing more, a failing call logs its lists and fails with its error, and a successful call logs its lists and stores its output |
| AgentSpec.BatchFoldOk | src/backend/bisheng/workflow/nodes/agent/agent.py:205-207 | items whose calls all succeed, each with an output key, make a successful fan-out |
| AgentSpec.BatchFoldStops | src/backend/bisheng/workflow/nodes/agent/agent.py:205-207 | an error in the batch loop ends it: later items change nothing |
| AgentSpec.BatchFoldPrompts | src/backend/bisheng/workflow/nodes/agent/agent.py:205-207 | a successful batch logs one user prompt per item, in item order |
| AgentSpec.BatchFoldResults | src/backend/bisheng/workflow/nodes/agent/agent.py:205-207 | with distinct output keys, the result holds the first n keys in declared order, each with its own item's output |
| AgentSpec.BatchFoldValues | src/backend/bisheng/workflow/nodes/agent/agent.py:205-207 | the batch-value log is empty when no item logs, and lists each item's single value in order when every item logs one |
| AgentSpec.RunOnceBatchValue | src/backend/bisheng/workflow/nodes/agent/agent.py:233-239 | with the sentinel once in the system template, a successful call with a truthy item logs exactly that item's variable value; without the sentinel it logs nothing |
| AgentSpec.BatchRunAudit | src/backend/bisheng/workflow/nodes/agent/agent.py:205-207 | a successful batch had an output key for every item and logged one prompt per item, in order. With distinct output keys among the first `len(batch)`, its keys are those keys in order, each holding its own item's output (without distinct keys `ret[k] = v` overwrites). With no sentinel among the system variables it logged no batch value. With the sentinel exactly once and every item non-empty, it logged each item's value in order |
| AgentSpec.BatchRunOutputIndex | src/backend/bisheng/workflow/nodes/agent/agent.py:205-206 | with more items than output keys and the first `len(output)` calls succeeding, the loop fails on `output[len(output)]` with that index, having logged exactly `len(output)` user prompts |
| AgentSpec.AiTurns | src/backend/bisheng/workflow/nodes/agent/agent.py:212-214 | one `'AI'` turn per result entry, in dict order, with that entry's value |
| AgentNode.InitAgentSpec | src/backend/bisheng/workflow/nodes/agent/agent.py:68-95 | an existing agent is kept; an agent exists exactly when no error was raised; a model error changes nothing; otherwise the executor type is the model's, and the agent gets the assembled tools, the node's llm and the system prompt (or the tool error is raised) |
| AgentNode.NewConfig | src/backend/bisheng/workflow/nodes/agent/agent.py:27-66 | definition; its properties are in AgentNode.AgentNode.constructor, which states the 0.3 temperature and False output_user defaults |
| AgentNode.Sentinel | src/backend/bisheng/workflow/nodes/agent/agent.py:233 | definition of `f'{self.id}.batch_variable'`; its use is stated in AgentSpec.SystemPassLog, BatchSubstitution and AgentNode.RunBatchValues |
| AgentNode.StoreCtx | src/backend/bisheng/workflow/nodes/agent/agent.py:108-181 | definition: what the store builders read (the knowledge table, the embeddings, the workflow variables, the workflow id and the temporary collection); its use is stated in Retrieval.KnowledgeToolSpecMeaning |
| AgentNode.OnceContext | src/backend/bisheng/workflow/nodes/agent/agent.py:232-271 | definition of what each `_run_once` of one `_run` reads, with the history chosen by AgentSpec.HistoryFor; its properties are in AgentSpec.RunOnceOutput |
| AgentNode.Outputs | src/backend/bisheng/workflow/nodes/agent/agent.py:202-207 | definition; its properties are in AgentSpec.SingleRun, AgentSpec.BatchRunAudit and AgentNode.RunResultKeys |
| AgentNode.RunSpec | src/backend/bisheng/workflow/nodes/agent/agent.py:188-216 | definition; its properties are in AgentNode.RunBuildsAgentOnce, RunAuditLengths, RunOutputIndexError, RunResultKeys, RunBatchValues and RunWriteBack |
| AgentNode.RunBuildsAgentOnce | src/backend/bisheng/workflow/nodes/agent/agent.py:68-70 | a run never replaces an existing agent or its executor type; an agent a run builds carries that run's system prompt |
| AgentNode.SecondRunReusesAgent | src/backend/bisheng/workflow/nodes/agent/agent.py:69-70 | after a successful run, any later run keeps the same agent |
| AgentNode.ModelErrorBeforeTools | src/backend/bisheng/workflow/nodes/agent/agent.py:72-88 | a model-lookup failure does not depend on tool or knowledge settings or on workflow variables, and is one of the two model errors |
| AgentNode.RunAuditLengths | src/backend/bisheng/workflow/nodes/agent/agent.py:188-207 | at most one system prompt, exactly one when the system variables resolve. A successful single run logs one user prompt and no batch value. A successful batch run logs one user prompt per item and had enough output keys. The three lists are cleared first: a system-variable error leaves all three empty, an agent-construction error leaves only the system prompt, and neither saves history |
| AgentNode.RunOutputIndexError | src/backend/bisheng/workflow/nodes/agent/agent.py:204-207 | a batch with more items than output keys, whose first `len(output)` calls succeed, fails with the output index `len(output)` after logging exactly that many user prompts, and saves no history |
| AgentNode.RunResultKeys | src/backend/bisheng/workflow/nodes/agent/agent.py:202-207 | a successful single run returns exactly the key `output`; a successful batch run with distinct keys returns the first n output keys in order, each holding its item's output |
| AgentNode.RunBatchValues | src/backend/bisheng/workflow/nodes/agent/agent.py:233-239 | without the sentinel no batch value is logged; with it once and non-empty items, a batch run logs each item's variable value in item order |
| AgentNode.RunWriteBack | src/backend/bisheng/workflow/nodes/agent/agent.py:210-214 | a failed run, or a run that does not output to the user, saves nothing; otherwise each result value is saved once as an `'AI'` turn after the existing history, in order |
| AgentNode.ParseLog | src/backend/bisheng/workflow/nodes/agent/agent.py:218-226 | both prompt lists and the result are always reported; the batch values exactly when there are any |
| AgentNode.GraphState.SaveContext | src/backend/bisheng/workflow/nodes/agent/agent.py:214 | one more chat turn with that sender and content |
| AgentNode.GraphState.constructor | src/backend/bisheng/workflow/nodes/agent/agent.py:240 | the workflow variables are the given ones and no chat turn is saved yet |
| AgentNode.AgentNode.State | src/backend/bisheng/workflow/nodes/agent/agent.py:38-40 | definition: the node's executor type, agent and three audit lists, with the saved turns; AgentNode.AgentNode.Run states it equals AgentNode.RunSpec |
| AgentNode.AgentNode.constructor | src/backend/bisheng/workflow/nodes/agent/agent.py:27-66 | the variables are extracted from both templates; temperature defaults to 0.3 and `output_user` to false; the executor type starts as `get_react_agent_executor` with no agent and empty lists |
| AgentNode.AgentNode.ResolveVariables | src/backend/bisheng/workflow/nodes/agent/agent.py:244-248 | the `variable_map` loop returns the map that `Resolve` specifies, or its first error |
| AgentNode.AgentNode.SystemVariablePass | src/backend/bisheng/workflow/nodes/agent/agent.py:235-240 | the system-variable loop appends exactly what `SystemPass` logs, and raises its error |
| AgentNode.AgentNode.RunOnce | src/backend/bisheng/workflow/nodes/agent/agent.py:228-273 | the audit lists grow and the output is as `RunOnceSpec` states |
| AgentNode.AgentNode.InitKnowledgeTools | src/backend/bisheng/workflow/nodes/agent/agent.py:104-135 | the loop returns the tools loaded for each key's specification in key order, or the first key's error |
| AgentNode.AgentNode.InitAgent | src/backend/bisheng/workflow/nodes/agent/agent.py:68-95 | executor type, agent and raised error are those `InitAgentSpec` states |
| AgentNode.AgentNode.RunOutputs | src/backend/bisheng/workflow/nodes/agent/agent.py:202-207 | single call or batch loop: the audit lists and the result are those `Outputs` states |
| AgentNode.AgentNode.RunBatch | src/backend/bisheng/workflow/nodes/agent/agent.py:205-207 | the batch loop's result, error and logs are those of the batch fan-out |
| AgentNode.AgentNode.RunItem | src/backend/bisheng/workflow/nodes/agent/agent.py:206-207 | one loop iteration extends the logs and the result exactly as one fold step does |
| AgentNode.AgentNode.SaveResults | src/backend/bisheng/workflow/nodes/agent/agent.py:210-214 | the history gains exactly the AI turns for the result dict |
| AgentNode.AgentNode.Run | src/backend/bisheng/workflow/nodes/agent/agent.py:188-216 | the node state, the saved history and the result after `_run` are those `RunSpec` states; the workflow variables are unchanged |
| ConvoTags.QueryCache.constructor | src/frontend/client/src/hooks/Conversations/useUpdateTagsInConvo.ts:46-48 | the cache holds the given conversation entries and conversation list |
| ConvoTags.ReplaceTag | src/frontend/client/src/hooks/Conversations/useUpdateTagsInConvo.ts:59 | same length; position by position, the old tag becomes the new one and every other tag stays |
| ConvoTags.ReplaceTagRemoves | src/frontend/client/src/hooks/Conversations/useUpdateTagsInConvo.ts:59 | with a real rename the old tag no longer occurs |
| ConvoTags.ReplaceTagMembership | src/frontend/client/src/hooks/Conversations/useUpdateTagsInConvo.ts:59 | other tags are present afterwards exactly when they were before; the new tag is present exactly when the old or the new one was |
| ConvoTags.ReplaceTagIdempotent | src/frontend/client/src/hooks/Conversations/useUpdateTagsInConvo.ts:79 | renaming twice equals renaming once |
| ConvoTags.RenameConversations | src/frontend/client/src/hooks/Conversations/useUpdateTagsInConvo.ts:56-62 | the mapped page keeps its length and renames each conversation in place |
| ConvoTags.RenamePages | src/frontend/client/src/hooks/Conversations/useUpdateTagsInConvo.ts:54-63 | every page keeps its position and gets its conversations renamed |
| ConvoTags.RenamePagesShape | src/frontend/client/src/hooks/Conversations/useUpdateTagsInConvo.ts:53-63 | page and conversation structure, ids and other fields are kept; an unaffected conversation is unchanged; an affected one gets the renamed tag list |
| ConvoTags.RenamedHasNoOldTag | src/frontend/client/src/hooks/Conversations/useUpdateTagsInConvo.ts:57-59 | with a real rename an affected conversation no longer has the old tag |
| ConvoTags.Affected | src/frontend/client/src/hooks/Conversations/useUpdateTagsInConvo.ts:57 | definition: a conversation is affected when it has a non-empty id and its tags include the tag; used by ConvoTags.IdsInMeaning and RenamePagesShape |
| ConvoTags.RenameConversation | src/frontend/client/src/hooks/Conversations/useUpdateTagsInConvo.ts:57-61 | definition; its properties are in ConvoTags.RenamePagesShape and RenamedHasNoOldTag |
| ConvoTags.IdsIn | src/frontend/client/src/hooks/Conversations/useUpdateTagsInConvo.ts:56-58 | definition; its properties are in ConvoTags.IdsInMeaning and IdsInAppend |
| ConvoTags.AffectedIds | src/frontend/client/src/hooks/Conversations/useUpdateTagsInConvo.ts:54-58 | definition; its properties are in ConvoTags.AffectedIdsAppend and AffectedIdsMeaning |
| ConvoTags.IdsInMeaning | src/frontend/client/src/hooks/Conversations/useUpdateTagsInConvo.ts:57-58 | an id is pushed exactly when some conversation with that non-empty id has the tag; at most one id per conversation |
| ConvoTags.IdsInAppend | src/frontend/client/src/hooks/Conversations/useUpdateTagsInConvo.ts:56-58 | ids are pushed in conversation order |
| ConvoTags.AffectedIdsAppend | src/frontend/client/src/hooks/Conversations/useUpdateTagsInConvo.ts:54-58 | ids are pushed page after page |
| ConvoTags.AffectedIdsMeaning | src/frontend/client/src/hooks/Conversations/useUpdateTagsInConvo.ts:54-58 | an id is collected exactly when some page holds an affected conversation with that id |
| ConvoTags.RenameEntries | src/frontend/client/src/hooks/Conversations/useUpdateTagsInConvo.ts:70-86 | definition; its properties are in ConvoTags.RenameEntriesNarrow |
| ConvoTags.RenameEntriesNarrow | src/frontend/client/src/hooks/Conversations/useUpdateTagsInConvo.ts:70-86 | no cache entry is added or removed; an entry changes only if its id was collected and it has tags, and then only its tags are renamed, once, even for an id collected twice |
| ConvoTags.UpdateTagsInConversation | src/frontend/client/src/hooks/Conversations/useUpdateTagsInConvo.ts:12-40 | an uncached conversation changes nothing; otherwise its entry gets the new tags and other fields kept, and a cached list is merged with the id and tags |
| ConvoTags.RenamePage | src/frontend/client/src/hooks/Conversations/useUpdateTagsInConvo.ts:56-62 | the map over one page yields the renamed conversations and pushes that page's affected ids |
| ConvoTags.RenameAllPages | src/frontend/client/src/hooks/Conversations/useUpdateTagsInConvo.ts:53-63 | the page loop yields the renamed pages and all affected ids, page after page |
| ConvoTags.RenameCachedEntries | src/frontend/client/src/hooks/Conversations/useUpdateTagsInConvo.ts:70-86 | the second loop renames exactly as `RenameEntries` states |
| ConvoTags.ReplaceTagsInAllConversations | src/frontend/client/src/hooks/Conversations/useUpdateTagsInConvo.ts:45-87 | without a cached list nothing changes and the call fails; otherwise the list becomes its renamed copy and the entries of the collected ids are renamed |

## Left out

- The language model, the agent executor and `ConfigurableAssistant` are not modelled. `agent.invoke` is a function parameter whose answer is a message list, or none when it raises.
- `AssistantAgent.init_tools_by_toolid`, `load_tools`, `decide_embeddings`, the knowledge lookup and the default-embedding lookup are parameters. The default-temperature argument is passed through untouched.
- `import_vectorstore` and `instantiate_vectorstore` are not modelled. Each store is modelled by the parameter dict it is built from. The Milvus `metadata_expr` string `file_id in [...]` becomes a structured filter, not the formatted text.
- Streaming callbacks (`LLMNodeCallbackHandler`, `RunnableConfig`) are left out. `unique_id` and `output_key` only reach them, so those parameters are accepted and ignored.
- `PromptTemplateParser.extract` and `format` are left abstract (function parameters), because their code is not part of this model. Properties are stated about the variable map handed to them.
- `graph_state.get_variable_by_str` comes from a base class that is not part of this model. A missing variable is modelled as an `UnknownVariable` error; the base class may behave differently. `get_history_list` is a parameter.
- `KnowledgeDao.query_by_id` returning nothing is modelled as a `KnowledgeNotFound` error. The source would fail later, on an attribute access. The knowledge id is passed as the string key.
- PyValues.ParseInt: models Python's `int()` on an optional sign and ASCII digits only. Surrounding whitespace, `_` digit separators and non-ASCII digits are not accepted.
- PyValues.PyStr: `repr` of strings nested inside lists or dicts does not model Python's quote selection or escaping.
- The agent object is assumed truthy once built (`if self._agent`).
- The history list returned by `get_history_list` is treated as a fresh value, so appending the human message cannot alias the workflow's saved history.
- `__init__` creates `batch_variable_list` (no leading underscore), while `_run`, `_run_once` and `parse_log` use `_batch_variable_list`. The model uses one list, which `_run` clears. The `AttributeError` that `parse_log` would raise before the first run is not modelled.
- Retrieval.FileToolName: tool names for temporary files are not unique: `FileToolNamesCanCollide` shows two keys with the same name. The model follows the code, which adds no disambiguating suffix.
- ConvoTags.ReplaceTagsInAllConversations: with no cached list the source's deep copy throws (`JSON.parse` of `undefined`). This is modelled as `ok == false` with the cache unchanged; the exception itself is not modelled.
- The `JSON.stringify`/`JSON.parse` deep copy is implicit in value semantics. The model does not capture JSON dropping `undefined` fields. The `updateConvoFields` helper is a parameter, because its code is not part of this model.
- The React hook wrapper and the `useQueryClient` plumbing are left out; the cache is a class with two fields.
