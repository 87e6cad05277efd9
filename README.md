# Reflexion agent: tool node and control loop

This project models the deterministic core of a LangGraph "reflexion" agent and
proves properties of the model.

The agent keeps an append-only log of messages. A first responder (`draft`)
writes an answer with search queries. The tool node (`execute_tools`) runs
every query and emits one tool message per distinct call id that has at least
one query: calls sharing an id share one message, and a call with no queries
gets none. A reviser
(`revise`) rewrites the answer. After `revise`, the conditional edge
`event_loop` counts the tool messages in the log. It ends the run once there
are more than `MAX_ITERATIONS` = 2 of them, and otherwise sends control back to
the tool node.

Modules:

- `Wrappers` (wrappers.dfy): `Option` and `Result`.
- `Messages` (messages.dfy): the message log entities: human, assistant with
  parsed tool calls, and tool messages.
- `Sequences` (sequences.dfy): small sequence helpers: element set,
  distinctness, first occurrence.
- `ToolExecutor` (tool_executor.dfy): `execute_tools`.
  - It is an imperative method made of three loops:
    - the nested fan-out loops that build the parallel lists `ids` and
      `tool_invocations`;
    - the zip loop that fills the insertion-ordered defaultdict `output_map`;
    - the emission loop that makes one tool message per key.
  - Each loop is proved equal to a specification function, and the properties
    the code promises are proved as lemmas about those functions.
  - The output parser and the batch tool executor are function parameters.
  - A tool message carries the inner dict itself, not its JSON text.
- `ReflexionGraph` (reflexion_graph.dfy):
  - `event_loop`, the graph's edges, and a run of the compiled graph.
  - The run is a function `Execute` over a step budget, plus the method
    `Invoke`, a loop proved equal to it.
  - The three node bodies are parameters. The model also provides the nodes
    main.py wires together: two assistant nodes and the real tool node.

The strict `>` in `event_loop` is kept as written. The comparison runs after
the round's tool message has been appended, so with one tool message per round
the run does three execute_tools/revise rounds (MAX_ITERATIONS + 1), not two.
`ReflexionGraph.OneToolMessagePerRoundTrace` states this.

Errors are values of `ToolExecutor.Error`:

- `EmptyState` is the index error from reading the last message of an empty log;
- `ParserFailure` is an exception from the parser;
- `MissingSearchQueries` is the key error for a parsed call whose arguments have
  no `search_queries`. `ReviseAnswer` in schemas.py:18-23 declares no such
  field, so a call of that shape takes this path.

In a run, a node that raises ends the run as `Failed`.

## Model

| member | source | states |
|---|---|---|
| ToolExecutor.FlatIds | tool_executor.py:30-36 | Defines the list `ids` after the nested loops have visited a prefix of the parsed calls: each call contributes its id once per search query, in call order. |
| ToolExecutor.FlatInvocations | tool_executor.py:30-36 | Defines `tool_invocations` after the nested loops have visited a prefix of the parsed calls: each call contributes one Tavily invocation per search query, in query order. |
| ToolExecutor.Put | tool_executor.py:41 | Defines one defaultdict write `output_map[id_][query] = output`: a new id is appended to the key order with an empty inner dict first; the query's entry in that id's inner dict is set to the output. |
| ToolExecutor.Merge | tool_executor.py:39-41 | Defines `output_map` after the zip loop: the writes of every position of the zip, which stops at the shortest of `ids`, `outputs` and `tool_invocations`. |
| ToolExecutor.ToMessages | tool_executor.py:44-48 | Defines the emission: one tool message per key of `output_map`, in key order, carrying the key's inner dict and the key as `tool_call_id`. |
| ToolExecutor.ExecuteToolsSpec | tool_executor.py:23-50 | Defines the node's result: the empty-log, parser and missing-`search_queries` errors in that order, otherwise the emitted messages of the merged batch outputs. |
| ToolExecutor.FanOut | tool_executor.py:30-36 | The nested loops produce exactly the flattened id list and invocation list of the parsed calls, or the missing-`search_queries` error when some call has no such key. |
| ToolExecutor.FlattenLengths | tool_executor.py:30-36 | Both parallel lists have one entry per (call, query), so they have the same length: the total number of queries. |
| ToolExecutor.FlattenAt | tool_executor.py:30-36 | Query j of call i lands at the same position in both lists. That position comes after all queries of earlier calls. There the list `ids` holds the call's id and the invocation list holds the Tavily tool with that query. |
| ToolExecutor.FlattenCovers | tool_executor.py:30-36 | Every position of the lists belongs to some (call, query) pair, so nothing else is appended. |
| ToolExecutor.FlatIdsAreCallsWithQueries | tool_executor.py:30-36 | The ids in the list `ids` are exactly the ids of the calls with at least one query. A call with an empty query list contributes nothing. |
| ToolExecutor.IdsWithQueriesStep | tool_executor.py:30-31 | One more parsed call adds its id to the set of ids with queries exactly when its query list is non-empty. |
| ToolExecutor.ZipLength | tool_executor.py:40 | The zip yields as many triples as the shortest of the three lists, and no more. |
| ToolExecutor.MergePrefix | tool_executor.py:39-41 | After any number of zip steps, the key order of the defaultdict lists exactly its keys. |
| ToolExecutor.MergeOutputs | tool_executor.py:39-41 | The zip loop builds the defaultdict that the merge specification gives for the whole zip, including the empty dict inserted on an id's first access. |
| ToolExecutor.PutOrder | tool_executor.py:41 | One defaultdict write appends its id to the key order if the id is new and leaves the order unchanged otherwise. |
| ToolExecutor.MergeKeys | tool_executor.py:39-41 | The keys of `output_map` are exactly the ids of the zipped prefix. |
| ToolExecutor.PutDistinct | tool_executor.py:41 | One defaultdict write never lists a key twice in the key order. |
| ToolExecutor.MergeDistinct | tool_executor.py:39-41 | After any number of zip steps, no key is listed twice in the key order of `output_map`. |
| ToolExecutor.FirstOccurrenceStep | tool_executor.py:39-41 | Appending an id to the zipped list, and to the key order when the id is new, keeps the key order in first-occurrence order. |
| ToolExecutor.PutFirstOccurrence | tool_executor.py:41 | One defaultdict write keeps the key order in first-occurrence order of the ids written so far. |
| ToolExecutor.MergeOrder | tool_executor.py:39-41 | The keys of `output_map` are ordered by where each first occurs in `ids`. |
| ToolExecutor.QueriesForStep | tool_executor.py:40-41 | One more zip step adds its query to the query set of its own id and no other. |
| ToolExecutor.QueriesForAbsent | tool_executor.py:40-41 | An id that has not been zipped has no queries. |
| ToolExecutor.PutKeys | tool_executor.py:41 | One defaultdict write adds its query to the inner dict of its own id and changes no other inner dict's keys. A new id's inner dict starts empty. |
| ToolExecutor.MergeQueries | tool_executor.py:39-41 | Each id's inner dict has exactly the queries zipped for that id as keys. |
| ToolExecutor.MergeValues | tool_executor.py:41 | Each stored output is the one from the last zipped position with that id and query: later writes overwrite earlier ones. |
| ToolExecutor.EmitMessages | tool_executor.py:44-48 | The emission loop yields one tool message per key, in key order. Each message carries that key's inner dict and has the key as `tool_call_id`. |
| ToolExecutor.ToMessagesIds | tool_executor.py:44-48 | The emission yields one tool message per listed key, with that key as its `tool_call_id`, and the ids are distinct when the keys are. |
| ToolExecutor.ExecuteTools | tool_executor.py:23-50 | The whole node computes exactly the specification result: the three error cases, or the merged messages of the parsed calls under the batch outputs. |
| ToolExecutor.DispatchIds | tool_executor.py:38-48 | All emitted messages are tool messages and no two share a `tool_call_id`. Their ids are exactly the ids of the zipped prefix: an invocation the batch left without an output adds nothing. There are as many messages as distinct ids in that prefix. |
| ToolExecutor.DispatchOrder | tool_executor.py:39-48 | Messages come out in the order in which their ids first occur in the zipped list `ids`. |
| ToolExecutor.DispatchContents | tool_executor.py:39-48 | Each message's mapping has exactly the queries zipped for its id. Each query maps to the output from its last zipped write. |
| ToolExecutor.DispatchFullBatch | tool_executor.py:30-48 | When the batch returns an output per invocation, the message ids are exactly the ids of the calls that have queries, one message per distinct id. Calls sharing an id share a message. |
| ToolExecutor.OnlyLastMessageRead | tool_executor.py:24-25 | Two logs with the same last message give the same result: only that message is read. |
| ToolExecutor.ExecuteToolsOutcome | tool_executor.py:24-31 | The node fails on an empty log, on a parser failure, or on a call without `search_queries`. It succeeds exactly when none of these holds. |
| ToolExecutor.SingleCallOneMessage | tool_executor.py:23-50 | If the last message parses to one call with queries and the batch answers, the result is exactly one tool message, carrying that call's id. |
| ReflexionGraph.CountToolMessages | main.py:32 | Defines the count `event_loop` takes: the number of messages in the log that are tool messages. |
| ReflexionGraph.EventLoop | main.py:31-36 | Defines `event_loop` with MAX_ITERATIONS = 2 (main.py:22): END when the tool-message count exceeds MAX_ITERATIONS, otherwise `execute_tools`. |
| ReflexionGraph.CountIsToolPositions | main.py:32 | The count used by `event_loop` equals the number of log positions that hold a tool message. |
| ReflexionGraph.EventLoopDecision | main.py:31-36 | `event_loop` returns END if and only if more than MAX_ITERATIONS = 2 log positions hold tool messages; otherwise it returns `execute_tools`. |
| ReflexionGraph.CountAppend | main.py:32 | The count over a concatenation of logs is the sum of the counts. |
| ReflexionGraph.CountAllTools | main.py:32 | A log made only of tool messages counts as its length. |
| ReflexionGraph.EventLoopIgnoresContent | main.py:31-36 | The decision depends only on which positions hold tool messages, never on what any message contains. |
| ReflexionGraph.CountPermutation | main.py:32 | Any rearrangement of the log has the same tool-message count. |
| ReflexionGraph.EventLoopPermutation | main.py:31-36 | Rearranging the log never changes the decision. |
| ReflexionGraph.EventLoopAppendNonTool | main.py:31-36 | Appending messages that are not tool messages leaves the decision unchanged. |
| ReflexionGraph.EventLoopMonotone | main.py:31-36 | Appending messages can turn `execute_tools` into END but never END back into `execute_tools`. |
| ReflexionGraph.Edge | main.py:27-39 | Defines the edges: `draft` to `execute_tools`, `execute_tools` to `revise`, and `revise` to whatever `event_loop` returns on the current log. The entry point `ENTRY_POINT` is `draft` (main.py:40). |
| ReflexionGraph.ToolNode | main.py:25 | Defines the `execute_tools` node as the graph runs it: the tool executor's messages on success, a node failure on any of its errors. |
| ReflexionGraph.Execute | main.py:41-45 | Defines a run of the compiled graph: from a node, run it; on failure stop as `Failed`, otherwise append its messages and follow its edge; END stops as `Finished`, and an exhausted step budget as `StepLimit`. |
| ReflexionGraph.GraphShape | main.py:24-40 | The entry point is `draft`. `draft` always leads to `execute_tools`, and `execute_tools` always leads to `revise`. Only `revise` can end the run, and otherwise it returns to `execute_tools`. No edge leads back to `draft`. |
| ReflexionGraph.ExecuteStep | main.py:23-39 | One step of a run: a node that succeeds has its messages appended to the log, and control follows the node's edge evaluated on the new log. |
| ReflexionGraph.Invoke | main.py:39-45 | Invoking the graph with a question starts at the entry point with a one-message log. It steps node by node until END, a node failure or the step limit, and yields the run the `Execute` function defines. |
| ReflexionGraph.Cycle | main.py:25-39 | From the tool node, successful `execute_tools` and `revise` steps are followed by `event_loop` on the log they leave. |
| ReflexionGraph.HalfCycle | main.py:28 | With one step left at the tool node, the run stops at the step limit after `execute_tools`. |
| ReflexionGraph.ExactRounds | main.py:22-39 | From the tool node, k tool messages short of END, with one tool message per round, the run does exactly k more rounds in 2k steps and ends with MAX_ITERATIONS + 1 tool messages. With fewer steps it stops at the step limit. |
| ReflexionGraph.OneToolMessagePerRoundTrace | main.py:22-45 | With one tool message per round, the run is `draft` followed by three execute_tools/revise rounds, then END, with 3 tool messages in the log. It finishes if and only if the step budget is at least 7, and otherwise it stops at the step limit. |
| ReflexionGraph.BoundedRounds | main.py:28-39 | From the tool node with at most MAX_ITERATIONS tool messages, if every round adds at least one, the run reaches END. It takes at least one round and at most MAX_ITERATIONS + 1 minus the current count, and ends with more than MAX_ITERATIONS tool messages. |
| ReflexionGraph.ProgressTerminates | main.py:22-45 | If every tool round adds at least one tool message, a run with 7 steps reaches END after `draft` and one to three rounds. |
| ReflexionGraph.NoProgressFrom | main.py:28-39 | From any node, if the log and every node's output hold no tool message, the run never reaches END. |
| ReflexionGraph.NoProgressNeverEnds | main.py:22-45 | If no round adds a tool message (for example, every call has zero queries), the run never ends by itself and only the step limit stops it. |
| ReflexionGraph.ToolNodeStep | tool_executor.py:23-50 | On a log whose last message parses to one call with queries, when the batch answers, the real tool node appends exactly one tool message. |
| ReflexionGraph.ToolNodeOneMessage | tool_executor.py:23-50 | If every message parses to one call with queries and the batch always answers, the real tool node appends exactly one tool message on every non-empty log. |
| ReflexionGraph.ReflexionNodes | main.py:24-26 | Defines the three nodes main.py registers: `draft` and `revise` each append one assistant message produced from the log, and `execute_tools` is the real tool node. |
| ReflexionGraph.OneAssistantMessage | main.py:24-26 | A node that appends one assistant message appends no tool message. |
| ReflexionGraph.ReflexionRunTrace | main.py:22-45 | Take the nodes main.py wires together: two responders that each append one assistant message, and the real tool node with a parser that yields one call with queries. A step budget of at least 7 then gives the run draft, execute_tools, revise, execute_tools, revise, execute_tools, revise, ending with three tool messages. |

## Left out

- The LLM chains (`first_responder`, `reviser`, and the output `parser` from chains.py): chains.py is not part of this model. Their behaviour is a function parameter.
- The Tavily search tool and the `ToolExecutor.batch` call: they are network I/O run concurrently. The batch is a function from invocations to outputs. A batch may return fewer outputs than invocations, and the zip then truncates.
- The `json.dumps` of each inner dict: a tool message keeps the dict itself, so the JSON text and the key order inside each inner dict are not modelled. The insertion order of the outer dict is modelled.
- Environment loading (`load_dotenv`), the `print` calls, the mermaid drawing and the `__main__` demos: output only.
- Pydantic validation of `AnswerQuestion` / `ReviseAnswer`: the "1-3 search queries" bound is only a field description and is not enforced. Query lists of any length are modelled.
- The extraction of the final answer at main.py:48: it is output of the demo run.
- The LangGraph runtime's recursion limit (a library setting, not in the source): it is the explicit step budget `fuel` of `Execute` / `Invoke`. A run that exhausts it ends as `StepLimit` rather than raising.
- MessageGraph's replacement of a message whose id is already in the log: the model always appends. Node outputs here carry no message ids of their own.
- ReflexionRunTrace: its parser hypothesis, the same one `ToolNodeOneMessage` takes, asks `parse` for one call with queries on every message, human and tool messages included. The run only parses the assistant messages `draft` and `revise` append, so the hypothesis is stronger than the run needs.
- Exceptions raised inside the LLM or tool nodes: a failing node is `None`, and the run's `Failed` outcome records the node. The exception type and message are not modelled.
