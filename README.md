# Chat store and suggestion provider of a customer-support assistant

This project models the two sequential parts of the backend of a customer-support chat assistant.

- **The in-memory conversation store** (`src/chats/service.py`). One process-wide list of chats starts with a single seed conversation. The store has five operations: list the chats, create a chat, look a chat up by id, append a message, and replace a chat's context. In `ChatService` this is the class `ChatStore`, whose field `chats: seq<Chat>` the methods reassign. Pure functions (`FirstIndex`, `Lookup`, `AddMessage`, `SetContext`) define what each operation does to the list, and lemmas about them state what lookup, append and update promise.
- **The suggestion provider** (`src/ai/providers/ovh.py`). It builds the transcript sent to an OpenAI-compatible chat-completions endpoint (`_build_messages`). It also turns the streamed response lines into text fragments (the line loop of `suggest_response`). In `OvhProvider` each of these is a loop method proved equal to a pure function (`Transcript`, `Fragments`), and the properties are lemmas about those functions.

The types of `src/chats/dtos.py` are datatypes in `Dtos`. Python's `None` and the `ValueError("Chat not found")` the store raises are `Option` and `Result`.

Inputs the code takes from outside become parameters:
- the ids that `uuid4().hex` generates (`freshId`, `msgId`);
- the lines of the HTTP response (`lines`);
- `json.loads`, as the partial function `parse: string -> Option<Chunk>`, where `None` is a `JSONDecodeError`.

Only the fields the provider reads are modelled in a decoded chunk: `choices`, then `delta` and `content` of the first choice. A missing key is `None`, and so is a `content` of JSON null, since both are falsy in the code.

Facts of the code that the model keeps:
- Roles are `user` and `assistant`.
- Appending a message starts no suggestion run and publishes no event.
- The line filter handles only `data: ` lines, with the space. It is the subset of the `data` field handling that the code implements, from the "Parsing an event stream" and "Interpreting an event stream" rules of the Server-Sent Events section of the HTML Living Standard. There is no `data:` without a space, no multi-line data joined together and no other fields. The `[DONE]` end marker is a convention of OpenAI-compatible endpoints, not part of that standard.

## Model

| member | source | states |
|---|---|---|
| Dtos.RoleValue | src/chats/dtos.py:5-7 | a role's wire value is `"user"` or `"assistant"`, never `"system"` |
| Dtos.RoleValueInjective | src/chats/dtos.py:5-7 | two roles with the same wire value are the same role |
| ChatService.ChatStore.constructor | src/chats/service.py:6-9 | the store starts with exactly one chat: id `"1"`, context `"General inquiry"`, messages `msg1` (user, "Hello!") then `msg2` (assistant, "How can I assist you today?") |
| ChatService.ChatStore.GetChats | src/chats/service.py:11-12 | returns the store's whole list, in order |
| ChatService.ChatStore.CreateChat | src/chats/service.py:14-17 | the returned chat has the fresh id, no messages and context `""`; the new list is the old list with exactly that chat appended at the end, so every earlier chat is unchanged and in the same order |
| ChatService.LookupAfterAppend | src/chats/service.py:14-20 | after a chat is appended, every id that was already present is looked up as before; a new chat whose id was unused is found by its id |
| ChatService.FirstIndex | src/chats/service.py:19-20 | none exactly when no chat has the id; otherwise a position holding that id with no earlier position holding it |
| ChatService.Lookup | src/chats/service.py:19-20 | none if and only if no chat has the id; otherwise the chat at the first position in list order with that id |
| ChatService.ChatStore.FindIndex | src/chats/service.py:19-20 | the scan loop returns the first position with the id, or none, as `FirstIndex` |
| ChatService.ChatStore.GetChatById | src/chats/service.py:19-20 | returns `Lookup` of the current list: the first chat with the id, or none |
| ChatService.NewMessage | src/chats/service.py:26 | the stored message has the fresh id and the request's text and role |
| ChatService.AddMessage | src/chats/service.py:22-28 | `ChatNotFound` if and only if the id is unknown; otherwise the list keeps its length, the first chat with the id gets exactly the new message at the end of its messages and keeps its id and context, and every other chat is unchanged |
| ChatService.ChatStore.AddMessageToChat | src/chats/service.py:22-28 | unknown id: `ChatNotFound` and the store is unchanged; known id: returns the message built from the request and the fresh id, and the store becomes `AddMessage` of the old store |
| ChatService.AddMessageThenLookup | src/chats/service.py:22-28 | after a successful append, looking the id up gives the old chat with the new message appended to its messages and nothing else changed |
| ChatService.AddAllInOrder | src/chats/service.py:22-28 | appending N messages one after another to a known chat leaves its old messages followed by the N new ones in append order, each with the id supplied for it; on an unknown id the first append fails with `ChatNotFound` |
| ChatService.SetContext | src/chats/service.py:30-34 | `ChatNotFound` if and only if the id is unknown; otherwise the first chat with the id gets exactly the given context (full replace) and keeps its id and messages, and every other chat is unchanged |
| ChatService.ChatStore.UpdateChatContext | src/chats/service.py:30-34 | unknown id: `ChatNotFound` and the store is unchanged; known id: the store becomes `SetContext` of the old store |
| ChatService.SetContextThenLookup | src/chats/service.py:30-34 | after a successful update, looking the id up gives the old chat with exactly the new context |
| ChatService.SetContextIdempotent | src/chats/service.py:34 | setting the same context a second time changes nothing |
| ChatService.FirstIndexSameIds | src/chats/service.py:19-34 | two lists with the same ids at the same positions give the same first match, so appends and context updates never redirect a lookup |
| ChatService.Declared | src/chats/dtos.py:14-16 | a chat built against the declared schema keeps its id and messages and drops `context` |
| ChatService.SetContextAsDeclared | src/chats/service.py:30-34 | against the declared schema, a context update always fails: with the undeclared-field error when the chat exists, with `ChatNotFound` otherwise |
| ChatService.ContextUpdateFailsAsDeclared | src/chats/service.py:30-34 | for every store, the as-declared update fails with the undeclared-field error exactly where the corrected update succeeds, and with `ChatNotFound` exactly where it fails |
| ChatService.SeedContextUpdate | src/chats/service.py:34 | on the seed chat `"1"`, the as-declared update fails, while the corrected update replaces its context with `"VIP customer"` |
| OvhProvider.SystemPrompt | src/ai/providers/ovh.py:57-72 | with an empty context the prompt is the fixed default; otherwise it is the fixed head, then the context string itself, then the fixed tail |
| OvhProvider.HistoryAt | src/ai/providers/ovh.py:74-79 | the history has one entry per chat message, and entry i carries message i's role value and text |
| OvhProvider.TranscriptShape | src/ai/providers/ovh.py:54-93 | the transcript has two entries more than the chat has messages; the first is the system prompt for the chat's context; entry i+1 has message i's role and text; the last is the fixed closing instruction; only the first and last are `system` entries |
| OvhProvider.TranscriptDependsOnContextOnlyFirst | src/ai/providers/ovh.py:57-91 | for chats with the same messages, the transcripts agree after the first entry; they are equal when the contexts are equal; two different non-empty contexts give different first entries |
| OvhProvider.BuildMessages | src/ai/providers/ovh.py:54-93 | the append loop builds exactly `Transcript(chat)` |
| OvhProvider.Payload | src/ai/providers/ovh.py:39-40 | a payload exists if and only if the line starts with `"data: "`, and it is the line after those 6 characters |
| OvhProvider.ContentOf | src/ai/providers/ovh.py:46-49 | a fragment exists if and only if `choices` is present and non-empty, its first element has a `delta` with non-empty `content`; the fragment is that content |
| OvhProvider.LineOutput | src/ai/providers/ovh.py:39-52 | a line emits at most one fragment, and emits one exactly when it is a `data: ` line whose payload parses and carries content |
| OvhProvider.Fragments | src/ai/providers/ovh.py:38-52 | the stream yields at most one fragment per line, and none of them is empty |
| OvhProvider.FragmentsConcat | src/ai/providers/ovh.py:38-52 | lines before any end marker contribute independently: the output for `a + b` is the output for `a` followed by the output for `b` |
| OvhProvider.DoneEndsStream | src/ai/providers/ovh.py:41-42 | nothing on or after a `data: [DONE]` line is emitted, whatever the later lines are |
| OvhProvider.SilentLineSkipped | src/ai/providers/ovh.py:38-52 | a line that is not the end marker and emits nothing can be removed without changing the output |
| OvhProvider.NonDataLineIgnored | src/ai/providers/ovh.py:39 | a line without the `"data: "` prefix contributes nothing, wherever it stands |
| OvhProvider.MalformedPayloadSkipped | src/ai/providers/ovh.py:44-52 | a `data: ` payload that fails to parse is skipped, and processing continues with the next line |
| OvhProvider.FragmentSources | src/ai/providers/ovh.py:46-50 | each fragment comes from its own line, in strictly increasing line order, that line emits exactly that fragment, and no end marker comes before it: the output is an ordered subsequence |
| OvhProvider.SuggestResponse | src/ai/providers/ovh.py:38-52 | the loop, with its `break` on `[DONE]` and its skips, yields exactly `Fragments(lines, parse)` |

## Findings

| source | as written | input that shows it | evidently intended | confidence | as-written member | corrected member |
|---|---|---|---|---|---|---|
| src/chats/dtos.py:14-16 | `Chat` declares only `id` and `messages`. Yet src/chats/service.py:9, 15 and 34 and src/ai/providers/ovh.py:57 and 61 write and read a `context` field. A pydantic model ignores an undeclared constructor keyword and refuses to assign an undeclared field. | `update_chat_context("1", "VIP customer")` finds the seed chat, then the assignment `chat.context = context` raises a ValueError. Context is never stored, and `_build_messages` cannot read it. | `Chat` declares `context: str`, and the update replaces it | medium (depends on pydantic's default model configuration); not executed | ChatService.SetContextAsDeclared, ChatService.ContextUpdateFailsAsDeclared, ChatService.SeedContextUpdate | ChatService.SetContext, ChatService.SetContextIdempotent |

The rest of the model uses the corrected `Chat` with a `context: string` field.

## Left out

- HTTP transport of `suggest_response`: the client, the 60-second timeout, the headers, `raise_for_status` and async iteration. These are network I/O, so the response is given as its sequence of lines, and a transport failure is not modelled.
- The request's `stream`, `temperature` and `max_tokens` fields: wire constants (one a float) with no effect on the modelled behaviour.
- `json.loads` is the `parse` parameter. Only `JSONDecodeError` is caught (src/ai/providers/ovh.py:51). A payload that decodes to a JSON array or string not containing `"choices"` passes the membership test at src/ai/providers/ovh.py:46 as false and is skipped quietly; the model covers it as `parse` returning `Some(Chunk(None))`. A `choices` value that is an empty object or an empty string has length 0 and is skipped like `[]`; the model covers it as `parse` returning `Some(Chunk(Some([])))`. The cases that raise past the `except` and end the generator with an error are not modelled: a payload that decodes to a number, `true`, `false` or `null` (the `in` test raises TypeError); an array or string payload that does contain `"choices"` (indexing it by `"choices"` raises TypeError); a `choices` value that is `null`, a boolean or a number (`len` raises TypeError at src/ai/providers/ovh.py:46), a non-empty object (`[0]` raises KeyError at src/ai/providers/ovh.py:47), or a non-empty string (`.get` raises AttributeError at src/ai/providers/ovh.py:47); a first choice that is not an object (`.get` raises AttributeError at src/ai/providers/ovh.py:47); a `delta` that is not an object, including JSON null (`.get` raises AttributeError at src/ai/providers/ovh.py:48). A non-string but truthy `content` would be yielded as it is; the model's `content` is always a string.
- `os.getenv` and the `ValueError` for a missing API key in the provider's constructor: environment I/O.
- `uuid4().hex`: randomness. Ids are parameters, with no freshness precondition on the operations, as the code checks none. Only `LookupAfterAppend` assumes an unused id to conclude that the new chat is found.
- Aliasing: chats are values in a sequence. In the code, `get_chats` and `get_chat_by_id` hand out the live list and the live chat objects, and both `add_message_to_chat` (`chat.messages.append`, src/chats/service.py:27) and `update_chat_context` (`chat.context = context`, src/chats/service.py:34) mutate the chat they found in place. `AddMessageToChat` and `UpdateChatContext` instead replace that chat's value in the list. The effect on the store is the same, but the model does not capture callers that keep and mutate a returned object, or see a later mutation through one.
- `src/chats/router.py` and `src/main.py` (HTTP routing and CORS), `src/dependencies.py` (a lazy singleton factory), and `src/ai/interfaces.py` (an abstract method): these contain no logic.
