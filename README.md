# ProactiveAgent agent core in Dafny

A Dafny model of the agent control loop in `agent/agentmodule.py` of
ProactiveAgent, a reactive assistant that batches user activity into
periodic observations, keeps a log of observe/respond/feedback turns, builds
a bounded chat transcript from that log for a completion backend, and turns
an approved tool-call string into requests to a local tool service.

Modules, one per part of the core:

- `Wrappers` (`wrappers.dfy`): `Option` (Python's None), `Result` and
  `Outcome` (raised exceptions as values).
- `TurnLog` (`turn_log.dfy`): turns and the three log updates as functions
  on a `seq<Turn>`, with the append-only and write-once laws over any run of
  calls.
- `Agent` (`agent.dfy`): the class `AgentCore`, whose `contexts` field is
  updated in place by `AddNewEvent`, `UpdateResponse` and `UpdateFeedback`,
  and whose `Reflect` builds the message list with the source's two loops:
  the appending loop and the backward truncation scan (`ForgetOlder`).
- `Dialogue` (`dialogue.dfy`): the specification of that message list
  (`Assemble`) and of truncation (`Truncate`), and what survives truncation.
- `Listener` (`listener.dfy`): the class `ActionListener` (event buffer,
  typed text, `last_post_time`) and the hot-key filter of `send_data`.
- `Operation` (`operation.dfy`): `str.split`, the `name&k=v&...` parser and
  its round trip.
- `Dispatch` (`dispatch.dfy`): which requests the executor's callback sends
  for each tool name, with HTTP as a parameter.

JSON is not modelled as text: a user message's `json.dumps(dict)` is the
dict itself (`Dialogue.UserContent`), which keeps distinct dicts distinct. A
`user_feedback` key that is present with a null value (`Some(None)`) is kept
apart from an absent key (`None`). The current time, the tool service's
replies and the `SYSTEM_PROMPT` of the prompt module are parameters.

## Model

| member | source | states |
|---|---|---|
| `TurnLog.AddEvent` | agent/agentmodule.py:49-55 | add_new_event appends exactly one turn, holding the event with response and user_feedback unset; every earlier turn is unchanged |
| `TurnLog.SetResponse` | agent/agentmodule.py:57-63 | update_response raises 'No event has been added.' on an empty log and 'already been updated' when the last response is set; it succeeds exactly otherwise, and then sets only the last turn's response |
| `TurnLog.SetFeedback` | agent/agentmodule.py:65-71 | update_feedback: the same two errors and success condition for user_feedback; only that field of the last turn changes |
| `TurnLog.ResponseWriteOnce` | agent/agentmodule.py:57-63 | a second update_response in a row always raises AlreadyUpdated |
| `TurnLog.FeedbackWriteOnce` | agent/agentmodule.py:65-71 | a second update_feedback in a row always raises AlreadyUpdated |
| `TurnLog.ResponseAndFeedbackCommute` | agent/agentmodule.py:57-71 | writing the response neither enables nor blocks writing the feedback, and both orders give the same log |
| `TurnLog.StepExtends` | agent/agentmodule.py:49-71 | any one call, raising or not, keeps every event, keeps every field once set, and leaves all turns before the last untouched |
| `TurnLog.RunExtends` | agent/agentmodule.py:49-71 | over any sequence of calls the log only grows: no event is replaced, no set field is overwritten, no turn before the last is touched |
| `TurnLog.RunLength` | agent/agentmodule.py:49-71 | the log grows by exactly one turn per add_new_event; updates never change its length |
| `Agent.AgentCore.constructor` | agent/agentmodule.py:41-47 | a new core starts with an empty log |
| `Agent.AgentCore.AddNewEvent` | agent/agentmodule.py:49-55 | the in-place append equals `AddEvent` of the old log |
| `Agent.AgentCore.UpdateResponse` | agent/agentmodule.py:57-63 | the in-place write yields the log of `SetResponse` on success and returns its error, changing nothing, on failure |
| `Agent.AgentCore.UpdateFeedback` | agent/agentmodule.py:65-71 | the same for `SetFeedback` |
| `Agent.AgentCore.Reflect` | agent/agentmodule.py:77-118 | the two loops of reflect produce exactly `Truncate(Assemble(contexts, ...), remain_content)` |
| `Agent.ForgetOlder` | agent/agentmodule.py:109-118 | the backward scan with a decrementing budget produces exactly `Truncate` of its input |
| `Agent.FeedbackReachesNextTurn` | agent/agentmodule.py:49-107 | after add, respond, a repeated respond (which raises AlreadyUpdated), feedback and a second add, reflect with the default budget -1 gives exactly: system, the first event without feedback, the response, and the second event with the first turn's feedback, the Instructions and the Operations |
| `Dialogue.History` | agent/agentmodule.py:80-94 | k history turns give 2k messages alternating user, assistant |
| `Dialogue.Assemble` | agent/agentmodule.py:77-107 | n turns give 2n messages: a system message with the prompt, then user at odd and assistant at even positions, ending with the final user message of the last turn |
| `Dialogue.DialogueAt` | agent/agentmodule.py:81-94 | for each turn i before the last, message 2i+1 is the user message with its event (and, for i > 0, turn i-1's feedback; none for i = 0) and message 2i+2 is the assistant message with turn i's response |
| `Dialogue.FinalMessage` | agent/agentmodule.py:96-107 | the last message is a user message with the last event, the Instructions and the Operations, and carries turn n-2's feedback if and only if there are at least two turns |
| `Dialogue.Truncate` | agent/agentmodule.py:109-118 | a budget of 0 or less changes nothing; otherwise length, order and roles are kept, every assistant message is unchanged, and each non-assistant message keeps its content exactly when at most `remain` non-assistant messages lie from it to the end, otherwise its content becomes 'The user is interacting with the android.' |
| `Dialogue.KeptIsSuffix` | agent/agentmodule.py:110-118 | the non-assistant messages that keep their content are the most recent ones: once one is kept, every later message is kept too |
| `Dialogue.TruncateWithinBudget` | agent/agentmodule.py:110-118 | a budget at least the number of non-assistant messages changes nothing |
| `Dialogue.DialogueSuffixCount` | agent/agentmodule.py:77-107 | from the user message of turn i to the end there are n - i messages that count against the budget |
| `Dialogue.DialogueCount` | agent/agentmodule.py:77-107 | the system message counts too: n turns give n + 1 non-assistant messages |
| `Dialogue.TruncatedUser` | agent/agentmodule.py:109-118 | with budget R > 0 the user message of turn i keeps its content exactly when R >= n - i, so the final one always does; otherwise it becomes the placeholder |
| `Dialogue.TruncatedSystem` | agent/agentmodule.py:109-118 | with budget R > 0 the system prompt survives exactly when R >= n + 1, otherwise it becomes the placeholder |
| `Listener.HotKeys` | agent/agentmodule.py:272 | the hot-keys list keeps exactly the buffered events whose data has a `hot_key` key, and no more events than were buffered |
| `Listener.HotKeysAppend` | agent/agentmodule.py:272 | filtering a buffer built in two parts is filtering each part, in push order: the filter preserves order |
| `Listener.HotKeysIdempotent` | agent/agentmodule.py:272 | filtering the hot-keys list again changes nothing |
| `Listener.ActionListener.constructor` | agent/agentmodule.py:221-234 | empty buffers and text, the given interval, and no last_post_time |
| `Listener.ActionListener.Start` | agent/agentmodule.py:294-300 | start sets last_post_time to the current time and nothing else |
| `Listener.ActionListener.ResetData` | agent/agentmodule.py:243-248 | reset_data empties event_data and text_content and touches nothing else |
| `Listener.ActionListener.PushEvent` | agent/agentmodule.py:286-292 | push_event appends the event to event_data unfiltered and touches nothing else |
| `Listener.ActionListener.SendData` | agent/agentmodule.py:250-284 | before start it raises; with an event lacking "data" it raises KeyError; either way nothing changes. Otherwise the observation has timestamp = the previous last_post_time, duration = interval_seconds, user_input = the typed text and hot-keys = `HotKeys` of the buffer; afterwards event_data is empty, text is "" and last_post_time is the supplied time; raw_events is untouched |
| `Listener.ConsecutiveIntervals` | agent/agentmodule.py:250-300 | after start at t0, one push and flushes at t1 and t2: the first observation is stamped t0 and holds the event if it is a hot key; the second is stamped t1 and is empty |
| `Operation.Split` | agent/agentmodule.py:336 | split gives at least one piece, no piece holds the separator, and joining the pieces with it gives back the string |
| `Operation.SplitJoin` | agent/agentmodule.py:336 | splitting undoes joining pieces that hold no separator |
| `Operation.ParsePairs` | agent/agentmodule.py:340 | parsing fails exactly when some segment does not split on '=' into two parts; otherwise each segment is its key, '=', and its value |
| `Operation.BuildParams` | agent/agentmodule.py:340 | the dict has exactly the keys of the pairs |
| `Operation.LastWriteWins` | agent/agentmodule.py:340 | a duplicated key takes the value of its last occurrence |
| `Operation.Parse` | agent/agentmodule.py:334-340 | the name is the text before the first '&' (all of it when there is none); parsing fails exactly when a later segment does not split on '=' into exactly two parts |
| `Operation.RoundTrip` | agent/agentmodule.py:334-340 | a name without '&' and keys and values without '&' or '=', joined into `name&k=v&...`, parse back to that name and the last-write-wins dict |
| `Operation.SearchExample` | agent/agentmodule.py:334-340 | serializing search with query=cats and search_engine=bing gives "search&query=cats&search_engine=bing", which parses to search with {query: cats, search_engine: bing} |
| `Dispatch.Route` | agent/agentmodule.py:345-371 | search sends one request with the parsed params unchanged; chat sends one chat request; read sends the read request first and at most a chat after it; any other name sends nothing and raises nothing; only the read reply can raise a KeyError, and it does exactly when the reply has no status, or has status 'success' and no content |
| `Dispatch.Execute` | agent/agentmodule.py:334-371 | a malformed tool call raises before any request is sent; at most two requests are sent |
| `Dispatch.ChatOverrides` | agent/agentmodule.py:350-357 | the chat query is the parsed params plus api_key, base_url and messages, and those three are always the executor's credentials and the observation, whatever the tool call said |
| `Dispatch.ReadChains` | agent/agentmodule.py:358-371 | a follow-up chat request is sent exactly when the read reply's status is 'success' (with content); it carries the API key, the base URL (or null), and a prompt embedding the exec args and the file content; any other status ends after the read without error; a reply without status, or a 'success' reply without content, raises a KeyError naming that key, and those are the only errors |
| `Dispatch.SearchForwardsSerialized` | agent/agentmodule.py:336-348 | a serialized search call sends exactly one search request whose query is the last-write-wins dict of its pairs |
| `Dispatch.ChatKeepsCredentials` | agent/agentmodule.py:336-357 | a serialized chat call uses the executor's api_key and the observation as messages even when its pairs name those keys |

## Left out

- The completion call at the end of `reflect` (agent/agentmodule.py:124-133), the five-attempt retry around it, its temperature choice and the semaphore of 16 (line 13), and `generate_response` (lines 135-143): calls into the completion backend and concurrency.
- The transcript `reflect` appends to `reflect.json` (lines 121-122): file output.
- `summary_context` (lines 145-150): an empty stub.
- `read_text_from_file` (lines 152-193): PDF, docx and file reading.
- `Trigger`, `Executor.__init__`, `Executor.receive` and the rest of `Executor.send` (lines 195-217, 302-327, 372-374): configuration loading and storing arguments. `send` defines `activated_callback` without calling it; `Dispatch.Execute` models the callback as a function of its own. Its `global status` assignment and its logging are left out.
- TurnLog.SetResponse / TurnLog.SetFeedback: the written value is a string, as the `response:str` and `feedback:str` annotations say (lines 57 and 65). Python does not enforce them: writing None would leave the field unset, so a later call would succeed instead of raising 'already been updated'. `Agent.AgentCore.UpdateResponse` and `Agent.AgentCore.UpdateFeedback` inherit this.
- Listener.ActionListener.constructor: takes the interval explicitly. The default `interval_seconds = 10` is not modelled, and neither is `watched_path` (lines 221-224), which the constructor accepts but never uses.
- `Agent.AgentCore.Reflect`: requires a non-empty log, because the source indexes the last turn and raises IndexError on an empty one.
- `ActionListener`'s file-system observer, `__exit__` and the keyboard and mouse listeners: OS event capture. No code in the core writes `raw_events` or appends to `text_content`, so the model only keeps, snapshots and clears them.
- `send_data` sets `duration` to the constant `interval_seconds` (line 270), not to the time elapsed since the last flush; the model follows the code. Its `status`, `apps` and `info` entries are always None and are not part of `Listener.Observation`. Timestamps are epoch seconds as reals; datetime and time zones are not modelled.
- Event dicts, tool replies and the tool descriptions passed to `reflect` hold arbitrary JSON values; the model keeps string-valued entries only, and each tool description is one opaque string.
- HTTP failures and a reply that is not JSON (`response.json()`): the service is a total function in the model, so these exceptions are not represented. The replies to search and chat are not inspected by the source and play no part.
- agent/components.py, agent/main.py, agent/ragent.py and agent/constant.py: the event-bus wiring, tag locks, threads, the web endpoints and process start-up. The prompt module and the tool register are not part of this model.
