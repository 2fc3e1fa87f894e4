# interface_openai, modelled in Dafny

This project models the core of `interface_openai`, a small Python service. It lets named users hold
resumable conversations with an assistant on a remote conversational service that keeps dialogue in
server-side threads. The core has three parts:

- **Session registry** (`app/data/threads_manager.py`, module `ThreadsManager`). This is a
  persistent dictionary from user name to thread id. Class `ThreadStore` holds the dictionary as a
  `map<string, string>` field, and its methods are the file's functions: forward lookup, reverse
  lookup by linear scan, listing, insert-or-overwrite, delete and clear. The text each operation
  prints or returns is returned as a string, except the confirmation line of `clear_all_threads`.
- **Thread routing** (`app/services/message_routing_manager.py`, module `MessageRoutingManager`).
  `GetOrCreateThread` returns the user's thread. When the user has none, it creates a thread on the
  remote side and stores it. The other three functions delegate to the registry.
- **Question routing** (`app/interfaces/interface_openai.py`, modules `InterfaceOpenAI` and
  `InterfaceOpenAILemmas`). This part covers:
  - the question guard and the keyword-argument defaults of `generate_response`;
  - the name prefix of `_format_user_question`;
  - the run-polling loop and reply extraction of `_run_assistant`;
  - the defaults and `file_ids` of `create_assistant`;
  - `create_thread`.

The remote service is not part of this model. Class `Client` records every remote call in `log`, in
order. Each answer comes from a `Remote` value, which holds total functions of the call history.
These functions decide whether the latest call succeeds or raises, the id a create call returns, the
status a run call reports, and the messages a list call returns (newest first). Each
remote-facing method's contract gives its result and the new log. Most of them are proved equal to a
specification function over that log (`Poll`, `RunAssistantSpec`, `GenerateResponseSpec`,
`CreateThreadSpec`, `GetOrCreateSpec`); `Client.Send` and `Client.CreateAssistant` state theirs
directly. The lemmas state
what the source promises about those functions.

Notes on the source's behaviour:

- The polling loop exits only on status `"completed"`. It has no branch for failed, cancelled or
  expired runs, and no timeout.
- `generate_response` takes its thread from its keyword arguments, or else from the configured
  default. The caller (the chat loop) is the one that calls `get_or_create_thread`.
- User names are not checked to be non-empty.

Because the polling loop may never end, `_run_assistant` takes a budget of retrieve calls (`fuel`).
When the budget runs out, the outcome is `Polling`, meaning "the source would still be looping". It
is not an error.

## Model

| member | source | states |
|---|---|---|
| `ThreadsManager.ThreadStore.constructor` | app/data/threads_manager.py:8 | the store starts out holding the backing file's records |
| `ThreadsManager.ThreadStore.RetrieveThreadId` | app/data/threads_manager.py:32-33 | returns the stored id exactly when the user is a key, and None otherwise; it modifies nothing (read-only open) |
| `ThreadsManager.ThreadStore.RetrieveUserName` | app/data/threads_manager.py:57-61 | the scan returns a user whose thread id is the one asked for, and returns None exactly when no record has that thread id; it modifies nothing |
| `ThreadsManager.ThreadStore.PrintShelveContents` | app/data/threads_manager.py:95-100 | an empty store prints only the empty notice; otherwise exactly one line per record, in some order of distinct records (a permutation of the records' lines, even when two records print the same text) |
| `ThreadsManager.ThreadStore.UpsertThread` | app/data/threads_manager.py:118-120 | the new map is the old one with the user set to the new id, and nothing else changes; returns the success string |
| `ThreadsManager.ThreadStore.DeleteThread` | app/data/threads_manager.py:137-142 | the new map is the old one without the user, and an absent user leaves it unchanged; reports which of the two notices is printed |
| `ThreadsManager.ThreadStore.ClearAllThreads` | app/data/threads_manager.py:156-157 | the map is empty afterwards, so every lookup returns None |
| `ThreadsManager.UpsertMessageMentions` | app/data/threads_manager.py:120 | the success string of an upsert contains both the thread id and the user name |
| `ThreadsManager.UpsertSetsOnlyUser` | app/data/threads_manager.py:119 | after an upsert, the user's lookup is the new id and every other key and value is unchanged |
| `ThreadsManager.UpsertOverwrites` | app/data/threads_manager.py:111-119 | upserting t1 and then t2 for one user leaves t2 |
| `ThreadsManager.UpsertIdempotent` | app/data/threads_manager.py:111-119 | repeating an upsert leaves the map unchanged |
| `ThreadsManager.DeleteRemovesOnlyUser` | app/data/threads_manager.py:137-142 | after a delete the user is absent and all other entries are kept; deleting an absent user changes nothing |
| `ThreadsManager.ReverseOfForward` | app/data/threads_manager.py:57-61 | when no two users share a thread id, the reverse lookup of a registered user's thread returns that user |
| `ThreadsManager.SharedThreadBreaksRoundTrip` | app/data/threads_manager.py:58-60 | with two users on one thread, the scan may answer with the other user |
| `MessageRoutingManager.CheckIfThreadExists` | app/services/message_routing_manager.py:57 | returns exactly what the forward lookup returns |
| `MessageRoutingManager.CheckIfUserNameExists` | app/services/message_routing_manager.py:79 | returns exactly what the reverse lookup may return |
| `MessageRoutingManager.StoreThread` | app/services/message_routing_manager.py:99 | does and returns exactly what the upsert does and returns |
| `MessageRoutingManager.GetOrCreateThread` | app/services/message_routing_manager.py:25-34 | the result, the new registry and the new call log are those of `GetOrCreateSpec` on the old registry and log |
| `MessageRoutingManager.GetOrCreateExisting` | app/services/message_routing_manager.py:27-28 | a registered user gets the stored id back, with no remote call and an unchanged registry |
| `MessageRoutingManager.GetOrCreateAbsent` | app/services/message_routing_manager.py:28-33 | an unregistered user causes exactly one create call; on success the new id is stored and returned, and a failing create leaves the registry untouched |
| `MessageRoutingManager.GetOrCreateStoresUser` | app/services/message_routing_manager.py:25-34 | on return the registry maps the user to the returned id, and other users' entries are unchanged |
| `MessageRoutingManager.GetOrCreateTwice` | app/services/message_routing_manager.py:25-34 | two consecutive calls for one user return the same id, and there is exactly one create call in total for a new user (none for a registered one) |
| `MessageRoutingManager.GetOrCreateKeepsInjective` | app/services/message_routing_manager.py:28-33 | routing keeps "no two users share a thread id" whenever the remote side issues an id that is not already in use |
| `InterfaceOpenAI.AssistantRequestFor` | app/interfaces/interface_openai.py:182-188 | `file_ids` is `[file_id]` for a non-empty file id and `[]` when the id is missing or empty; each missing keyword falls back to its configured default |
| `InterfaceOpenAI.Client.CreateAssistant` | app/interfaces/interface_openai.py:180-201 | sends one create call with that request; returns the new assistant's id, or None when the call fails |
| `InterfaceOpenAI.SettingsFor` | app/interfaces/interface_openai.py:476-478 | `assistant_id` falls back to the configured assistant, `thread_id` to the configured thread, and `user_name` to None |
| `InterfaceOpenAI.FormatUserQuestion` | app/interfaces/interface_openai.py:419-430 | with no name, the question is returned unchanged (even None); with a name and no question, ValueError; otherwise exactly the fixed opening, then the name, then the fixed joint text, then the question (an empty name is still prefixed) |
| `InterfaceOpenAI.CreateThreadSpec` | app/interfaces/interface_openai.py:277-281 | one create call; its id on success, and an error when the remote side raises |
| `InterfaceOpenAI.Client.CreateThread` | app/interfaces/interface_openai.py:277-281 | its result and new log are those of `CreateThreadSpec` |
| `InterfaceOpenAI.ReplyOf` | app/interfaces/interface_openai.py:467-468 | the reply is the text of the first content item of the newest message; when there is none, an error is raised |
| `InterfaceOpenAI.Client.RunAssistant` | app/interfaces/interface_openai.py:457-469 | the loop's outcome and new log are those of `RunAssistantSpec` (create the run, then `Poll`) |
| `InterfaceOpenAI.Client.GenerateResponse` | app/interfaces/interface_openai.py:472-495 | the outcome and new log are those of `GenerateResponseSpec` |
| `InterfaceOpenAILemmas.PollLog` | app/interfaces/interface_openai.py:461-467 | the loop only appends retrieve calls on the same thread and run, and then at most one listing of that thread |
| `InterfaceOpenAILemmas.PollAnswersOnlyAfterCompleted` | app/interfaces/interface_openai.py:461-468 | the loop answers only after the run reported "completed" following some number of successful polls; the answer is read from the listing made right after |
| `InterfaceOpenAILemmas.PollReachesCompletion` | app/interfaces/interface_openai.py:461-468 | a run that completes within the budget is answered from the listing made right after its completion |
| `InterfaceOpenAILemmas.PollNeverAnswersWithoutCompletion` | app/interfaces/interface_openai.py:461 | without a "completed" status within the budget there is no answer |
| `InterfaceOpenAILemmas.PollKeepsPolling` | app/interfaces/interface_openai.py:461-464 | every status other than "completed" (failed, cancelled or expired included) leads to another retrieve of the same run: a run that never completes and whose retrieves all succeed uses up the whole budget and ends as `Polling`, after exactly `fuel` retrieve calls |
| `InterfaceOpenAILemmas.RunAssistantLog` | app/interfaces/interface_openai.py:458-467 | the run is created on the thread, then only that run is polled on that thread, and then that thread is listed |
| `InterfaceOpenAILemmas.GenerateRefusesBlankQuestion` | app/interfaces/interface_openai.py:472-473 | an empty or None question raises ValueError before any remote call |
| `InterfaceOpenAILemmas.GenerateCallOrder` | app/interfaces/interface_openai.py:476-489 | the formatted user message goes to the resolved thread first, then the run is created with the resolved assistant, then that run alone is polled, then the thread is listed |
| `InterfaceOpenAILemmas.GenerateAnswersOnlyAfterCompleted` | app/interfaces/interface_openai.py:481-489 | `generate_response` replies only when the question is not blank and the run it created reported "completed"; the reply comes from the newest listed message |

## Left out

- Storage: the `shelve` file handling (`DB_PATH`, open flags, writeback) and I/O failures. Only the logical map is modelled.
- Iteration order: the order of the store's `items()` is left open. The reverse lookup and the listing are specified for any order.
- `clear_all_threads` prints a fixed confirmation line; the model does not return it.
- Logging: `log_function_call` only logs and then returns or re-raises unchanged.
- Remote service: its own behaviour is left abstract. The SDK wrappers `OpenAIClientSingleton`, `upload_file_to_openai`, `retrieve_assistant` and `retrieve_thread` are not modelled, because they only forward to the SDK.
- `time.sleep(0.5)` in the polling loop: wall-clock waiting is not modelled.
- Exception messages: the text, and the re-wrapping in `create_thread` and `generate_response`, are not modelled. Errors are kept as kinds (`ValueError`, `RemoteError`, `ReplyMissing`).
- InterfaceOpenAI.Client.RunAssistant: stops after `fuel` retrieve calls and returns `Polling`. The source keeps polling without end, so its non-termination is represented by that outcome.
- InterfaceOpenAI.Client.RunAssistant: later polls use the run id returned by the create call. This assumes the remote side returns the same id on every retrieve.
- InterfaceOpenAI.Client.GenerateResponse: keyword arguments are strings or absent. An explicit `None` for `thread_id` or `assistant_id` is not modelled. For `user_name`, an explicit `None` behaves like an absent one.
- InterfaceOpenAI.AssistantRequestFor: an absent keyword argument stands for "not given". An explicit `None` for `name`, `instructions`, `tools` or `model`, which the source passes on instead of the default, is not modelled. Tools are reduced to their `type`.
- Configuration: environment loading (`load_dotenv`, `os.getenv`) and `json.loads` are not modelled. The default ids and assistant settings are the literal constants of `app/utils/openia_config.py`.
- The terminal front end (`cli/cli_layout.py`, `tests/simulation/chat_simulator.py`), `app/utils/filter_py_content.py` and the live-API tests are not part of this model.
