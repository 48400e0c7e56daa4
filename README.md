# Stateful agents: a Dafny model of the agent state layer

This project models the in-process state of a `stateful_agents` agent and proves
properties of that model:

- **Core memory.** A key-to-text map. Each value is cut to at most `max_block_size` characters when it is written.
- **Archival memory.** An insertion-ordered list of items. It is searched by case-insensitive substring, in insertion order, and items are deleted by id.
- **Recall memory.** A bounded first-in-first-out conversation log. It is searched newest first and sliced by recency or by range.
- **Memory manager.** A facade over the three tiers, with per-tier statistics and a reset of all three.
- **Tools.**
  - A tool checks that it has a handler, then checks its required parameters, before it calls the handler.
  - The tool manager is a registry in which registering a tool replaces the one of the same name.
  - The tool manager also runs tools by name, lists their schemas and installs three built-in core-memory tools.
- **Communication manager.** The agent's mailbox:
  - it refuses messages addressed to another agent;
  - it keeps a bounded FIFO queue;
  - reading the queue empties it.
- **Agent.**
  - Construction creates missing managers, seeds a `persona` core block and composes the system prompt.
  - `send_message` logs the user message and the reply in recall memory and builds a context record.
  - The language-model call is a placeholder that returns a fixed text.

How the model is laid out:

- **Modules.** Each source file is one module:
  - `Core`, `Archival`, `Recall` and `Memory` for the memory files;
  - `Tools` and `ToolRegistry` for the tool files;
  - `Communication` and `Messages` for the communication files;
  - `Agents` for the agent.
- **Shared helpers.** Four modules hold behaviour that the source spreads over several files:
  - `Slices` is Python slicing, with negative bounds and clamping.
  - `Fifo` is the append-then-keep-`log[-max:]` trim, which recall memory and the mailbox share.
  - `Seqs` holds filtering, taking the first `n` elements, and the subsequence relation.
  - `Strings` holds ASCII lower-casing, substring containment and decimal rendering.
- **Imperative parts.** Objects whose fields the source updates in place are classes with `seq`/`map` fields.
  - Their mutating methods state the new state as a function of the old one.
  - The source's loops are `while` loops proved against specification functions:
    - the archival `get`, `search` and `delete`;
    - the recall `search`;
    - `register_tool` and `get_tool`;
    - the core `total_size` sum.
- **Parameters.** The clock (`time.time()`) is a parameter of every operation that reads it.

Behaviour of the code worth noting:

- **Archival ids can repeat.** An id is `mem_<whole seconds>_<items held>`. After a delete and a new add within the same second, two live items share an id (`Archival.DuplicateIdAfterDelete`). The model reuses the id, as the code does.
- **Search with `limit <= 0`.** The search loops test the limit only after they append a match. So a search with `limit <= 0` still returns one match when there is one (`Seqs.Cap`).
- **Adding then searching.** "Add `c`, then search for `c` with limit 1, returns `c`" holds only when no earlier item mentions `c`. `Archival.AddThenSearch` proves the exact statement.
- **A maximum of 0.** `q[-0:]` is the whole list, so a recall log or mailbox with maximum 0 is never trimmed.
- **A negative maximum.** A negative maximum drops entries from the front, the newest message included when the log is short.

## Model

| member | source | states |
|---|---|---|
| Core.CoreMemory.constructor | stateful_agents/memory/core_memory.py:5-9 | a new core memory holds no blocks and keeps the given block limit (1024 when built with the defaults) |
| Core.Truncate | stateful_agents/memory/core_memory.py:13-15 | the stored value is a prefix of the written one; it is the value itself when within the limit, and exactly `limit` characters long when longer |
| Core.CoreMemory.AddOrUpdate | stateful_agents/memory/core_memory.py:11-17 | the blocks become the old blocks with `key` bound to the truncated value, so every other key is unchanged; `get(key)` then returns `value` or its first `max_block_size` characters; the no-value-over-the-limit invariant is preserved |
| Core.CoreMemory.Get | stateful_agents/memory/core_memory.py:19-21 | returns a value exactly when the key is present, and that value is the stored one |
| Core.CoreMemory.Has | stateful_agents/memory/core_memory.py:23-25 | true exactly when a block is stored under the key; `Get` returns a value exactly when `Has` holds |
| Core.CoreMemory.Delete | stateful_agents/memory/core_memory.py:27-30 | removes only `key`; deleting an absent key changes nothing; afterwards `has(key)` is false and `get(key)` is None |
| Core.CoreMemory.GetAll | stateful_agents/memory/core_memory.py:32-34 | the snapshot has exactly the stored keys and their values |
| Core.CoreMemory.Count | stateful_agents/memory/core_memory.py:36-38 | the count is zero exactly when the store is empty |
| Core.CoreMemory.TotalSize | stateful_agents/memory/core_memory.py:40-42 | the loop's total is the sum of the value lengths |
| Core.TotalLengthRemove | stateful_agents/memory/core_memory.py:40-42 | the sum of value lengths does not depend on the order in which the keys are visited |
| Core.TotalLengthUpdate | stateful_agents/memory/core_memory.py:17 | writing a key changes the total by the new length minus the old one |
| Core.TotalLengthBound | stateful_agents/memory/core_memory.py:9-17 | a store whose values respect the limit holds at most `count * max_block_size` characters |
| Core.CoreMemory.Clear | stateful_agents/memory/core_memory.py:44-46 | the store is empty and the limit is kept |
| Archival.ArchivalMemory.constructor | stateful_agents/memory/archival_memory.py:15-19 | a new archival memory holds no items |
| Archival.ItemId | stateful_agents/memory/archival_memory.py:27 | ids have the form `mem_<seconds>_<position>` |
| Archival.ArchivalMemory.Add | stateful_agents/memory/archival_memory.py:24-41 | exactly one item is appended at the end, carrying the given content, the metadata or `{}`, and the returned id; earlier items are unchanged |
| Archival.DuplicateIdAfterDelete | stateful_agents/memory/archival_memory.py:27 | add, add, delete the first item, then add within one second: the two remaining items carry the same id |
| Archival.ArchivalMemory.Get | stateful_agents/memory/archival_memory.py:43-48 | returns the first item with the id, or None exactly when no item has it |
| Archival.ArchivalMemory.Search | stateful_agents/memory/archival_memory.py:50-68 | the loop with early exit returns `SearchResults`: the first `max(limit, 1)` matches in insertion order |
| Archival.SearchSpec | stateful_agents/memory/archival_memory.py:54-68 | results all match the query ignoring case; they are an order-preserving subsequence of the store and a prefix of all matches; there are at most `limit` of them for `limit >= 1` and at most one for `limit <= 0`; every match is returned when fewer are found |
| Archival.AddThenSearch | stateful_agents/memory/archival_memory.py:24-68 | after adding `c`, a search for `c` is not empty; its first result is the new item when no earlier item mentions `c`, and the first earlier match otherwise |
| Archival.Removed | stateful_agents/memory/archival_memory.py:70-77 | without a matching item the list is unchanged; otherwise exactly the first item with the id is removed |
| Archival.ArchivalMemory.Delete | stateful_agents/memory/archival_memory.py:70-77 | reports true exactly when some item had the id, removes only the first such item, and the list shrinks by one |
| Archival.ArchivalMemory.Count | stateful_agents/memory/archival_memory.py:79-81 | the count is zero exactly when the store is empty |
| Archival.ArchivalMemory.TotalSize | stateful_agents/memory/archival_memory.py:83-85 | the total is zero for an empty store and at least each item's length |
| Seqs.SumAppend | stateful_agents/memory/archival_memory.py:83-85 | adding an element adds its size to the total, so `add` grows the total size by the new content length |
| Archival.ArchivalMemory.Clear | stateful_agents/memory/archival_memory.py:87-89 | the store is empty |
| Fifo.PushKeepsNewest | stateful_agents/memory/recall_memory.py:12-18 | with a positive maximum, the log after an append is the last `min(n + 1, max)` entries of `old + [m]`, in order, ending with `m` |
| Fifo.PushDropsOnlyOldest | stateful_agents/memory/recall_memory.py:17-18 | whatever the maximum, the new log is a suffix of `old + [m]` |
| Fifo.PushUnboundedAtZero | stateful_agents/memory/recall_memory.py:17-18 | with maximum 0 nothing is ever dropped |
| Fifo.PushAllKeepsNewest | stateful_agents/communication/communication_manager.py:33-37 | any non-empty run of appends leaves the last `max` of everything appended, in arrival order |
| Fifo.PushTwiceKeepsBoth | stateful_agents/agent.py:107-124 | with room for two entries, two consecutive appends end the log with both, in order |
| Recall.RecallMemory.constructor | stateful_agents/memory/recall_memory.py:6-10 | a new recall memory holds no messages and keeps the given maximum (1000 when built with the defaults) |
| Recall.RecallMemory.Add | stateful_agents/memory/recall_memory.py:12-18 | the log becomes the trimmed `old + [m]`; it holds at most `max_messages` entries for a positive maximum; with maximum 0 it is untrimmed; only the oldest entries are dropped |
| Recall.RecallMemory.Search | stateful_agents/memory/recall_memory.py:20-34 | the backward scan with early exit returns `Hits`: the first `max(limit, 1)` matches of the reversed log |
| Recall.HitsSpec | stateful_agents/memory/recall_memory.py:27-32 | results all match the query ignoring case and are an order-preserving subsequence of the reversed log (newest first); there are at most `limit` of them for `limit >= 1` and at most one otherwise; they are the newest matches, a prefix of all matches listed newest first; when fewer are found they are all the matches, newest first |
| Recall.LatestFirst | stateful_agents/memory/recall_memory.py:27-32 | a search for the newest message's content returns that message first |
| Recall.NewestFirst | stateful_agents/memory/recall_memory.py:12-32 | after `add(m)` with a non-negative maximum, a search for `m.content` returns `m` first |
| Recall.RecallMemory.GetRecent | stateful_agents/memory/recall_memory.py:36-38 | for `limit >= 1` it is the last `min(limit, len)` messages in order; for 0 it is the whole log; a negative limit drops that many from the front |
| Recall.RecentByDefault | stateful_agents/memory/recall_memory.py:36-38 | with the default limit of 10, the result is the newest ten messages, or the whole log when shorter, in log order |
| Slices.FromNegated | stateful_agents/memory/recall_memory.py:38 | `s[-k:]` is the last `k` elements for `k >= 1`, all of `s` for `k = 0`, and drops `-k` elements from the front for `k < 0` |
| Recall.RecallMemory.GetByRange | stateful_agents/memory/recall_memory.py:40-44 | equals `messages[start:]` or `messages[start:end]` for in-range bounds, and is always a contiguous slice of the log |
| Recall.RecallMemory.Count | stateful_agents/memory/recall_memory.py:46-48 | the count is zero exactly when the log is empty |
| Recall.RecallMemory.TotalSize | stateful_agents/memory/recall_memory.py:50-52 | the total is zero for an empty log and at least each message's length |
| Recall.RecallMemory.Clear | stateful_agents/memory/recall_memory.py:54-56 | the log is empty and the maximum is kept |
| Memory.MemoryManager.constructor | stateful_agents/memory/memory_manager.py:9-14 | the manager holds exactly the three tiers it is given |
| Memory.MemoryManager.Default | stateful_agents/memory/memory_manager.py:12-14 | each tier is created new and empty, with the default limits (1024 characters per block, 1000 messages) |
| Memory.MemoryManager.AddCoreMemory | stateful_agents/memory/memory_manager.py:19-29 | only core memory changes; afterwards `has_core_memory(key)` holds and `get_core_memory(key)` returns the truncated value |
| Memory.MemoryManager.GetCoreMemory | stateful_agents/memory/memory_manager.py:23-25 | returns a value exactly when the key is stored, and that value |
| Memory.MemoryManager.HasCoreMemory | stateful_agents/memory/memory_manager.py:27-29 | true exactly when the core tier returns a value for the key |
| Memory.MemoryManager.GetAllCoreMemory | stateful_agents/memory/memory_manager.py:31-33 | the snapshot equals the stored blocks |
| Memory.MemoryManager.AddToArchival | stateful_agents/memory/memory_manager.py:35-37 | only archival memory changes, by one appended item, and the new id is returned |
| Memory.MemoryManager.SearchArchival | stateful_agents/memory/memory_manager.py:39-41 | returns the archival search results and changes nothing |
| Memory.MemoryManager.AddToRecall | stateful_agents/memory/memory_manager.py:43-45 | only recall memory changes, by one FIFO append |
| Memory.MemoryManager.GetRelevantRecall | stateful_agents/memory/memory_manager.py:47-49 | returns the recall search results and changes nothing |
| Memory.MemoryManager.GetRecentRecall | stateful_agents/memory/memory_manager.py:51-53 | the last `limit` messages, or the whole log for limit 0 |
| Memory.MemoryManager.GetMemoryStats | stateful_agents/memory/memory_manager.py:55-70 | each tier's count and total size are exactly that tier's number of entries and sum of lengths |
| Memory.MemoryManager.ClearAll | stateful_agents/memory/memory_manager.py:72-76 | all three tiers are empty, report count 0 and size 0, and keep their limits |
| Tools.FirstMissing | stateful_agents/tools/tool.py:23-25 | None exactly when every required name is present; otherwise the first absent name in list order |
| Tools.Precheck | stateful_agents/tools/tool.py:17-25 | a missing handler fails first; otherwise the check passes exactly when all required parameters are present, and a failure names an absent required parameter |
| Tools.GetSchema | stateful_agents/tools/tool.py:30-37 | the schema carries exactly the name, description, parameters and required list |
| Tools.Invoke | stateful_agents/tools/tool_manager.py:58-78 | a built-in handler runs the bound core-memory operation on exactly its keyword arguments, refuses any other keyword set, and returns its result |
| Tools.Execute | stateful_agents/tools/tool.py:17-28 | a failed check returns that error and changes nothing; otherwise the handler's result is returned unmodified, with extra arguments not rejected |
| ToolRegistry.ToolManager.constructor | stateful_agents/tools/tool_manager.py:8-12 | a new tool manager belongs to the given agent and has no tools |
| ToolRegistry.Registered | stateful_agents/tools/tool_manager.py:17-26 | after registering `t`, `t` is the last tool |
| ToolRegistry.RegisterSpec | stateful_agents/tools/tool_manager.py:17-26 | registering preserves unique names; the list grows by one for a new name and keeps its length for a replacement; `t` is last |
| ToolRegistry.RegisterKeepsOthers | stateful_agents/tools/tool_manager.py:17-26 | with unique names, the new list is the old one without the tool of that name, other tools in their order, followed by `t` |
| ToolRegistry.KeptByRegister | stateful_agents/tools/tool_manager.py:17-26 | a tool with a different name survives a registration |
| ToolRegistry.ToolManager.RegisterTool | stateful_agents/tools/tool_manager.py:17-26 | the loop with break yields `Registered`; unique names are preserved and the others keep their order |
| ToolRegistry.LookupUnique | stateful_agents/tools/tool_manager.py:28-33 | in a registry with unique names, looking up a tool's name finds that tool |
| ToolRegistry.ToolManager.GetTool | stateful_agents/tools/tool_manager.py:28-33 | returns None exactly when no tool has the name, and otherwise the first tool with it |
| ToolRegistry.ToolManager.ExecuteTool | stateful_agents/tools/tool_manager.py:35-41 | an unknown name fails with not-found; otherwise the result is that tool's `execute`, failing checks changing nothing |
| ToolRegistry.Schemas | stateful_agents/tools/tool_manager.py:43-45 | one schema per tool, in list order, with the tool's name and required list |
| ToolRegistry.ToolManager.GetToolSchemas | stateful_agents/tools/tool_manager.py:43-45 | the i-th schema is the i-th tool's schema |
| ToolRegistry.CoreAddTool | stateful_agents/tools/tool_manager.py:50-59 | the tool is `core_memory_add`, bound to the given core memory, with parameters and required list `key` and `value` |
| ToolRegistry.CoreGetTool | stateful_agents/tools/tool_manager.py:61-69 | the tool is `core_memory_get`, bound to the given core memory, with the single parameter and requirement `key` |
| ToolRegistry.CoreDeleteTool | stateful_agents/tools/tool_manager.py:71-79 | the tool is `core_memory_delete`, bound to the given core memory, with the single parameter and requirement `key` |
| ToolRegistry.MemoryToolsFound | stateful_agents/tools/tool_manager.py:47-79 | after the three registrations, names are unique and each built-in name finds its tool, bound to the given core memory, with required `[key, value]`, `[key]` and `[key]` |
| ToolRegistry.ToolManager.AddMemoryTools | stateful_agents/tools/tool_manager.py:47-79 | the list is the three registrations applied in order; with unique names before, each built-in name finds its tool |
| ToolRegistry.AddWithoutValueRejected | stateful_agents/tools/tool_manager.py:50-59 | `core_memory_add` with only a key fails on the missing `value` before the handler runs |
| Communication.CommunicationManager.constructor | stateful_agents/communication/communication_manager.py:7-12 | a new mailbox belongs to the given agent, is empty and keeps the given maximum (100 by default) |
| Communication.Outgoing | stateful_agents/communication/communication_manager.py:14-26 | the message carries the sender, receiver, content, type and timestamp given, and the metadata or `{}` |
| Communication.CommunicationManager.SendMessage | stateful_agents/communication/communication_manager.py:14-26 | the sender is this agent's id; nothing is queued |
| Communication.CommunicationManager.ReceiveMessage | stateful_agents/communication/communication_manager.py:28-37 | a message for another receiver is refused with both ids and the queue is unchanged; otherwise the queue is the trimmed `old + [m]`, a suffix of it, at most `max_queue_size` long and ending with `m` for a positive maximum, and non-empty for a non-negative one |
| Communication.MailboxKeepsLastHundred | stateful_agents/communication/communication_manager.py:33-37 | 150 arrivals at the default maximum of 100 leave the last 100, in order |
| Communication.CommunicationManager.GetPendingMessages | stateful_agents/communication/communication_manager.py:39-43 | returns the queue in arrival order and leaves it empty |
| Communication.CommunicationManager.HasPendingMessages | stateful_agents/communication/communication_manager.py:45-47 | true exactly when the queue is non-empty |
| Agents.DefaultSystemPrompt | stateful_agents/agent.py:60-66 | starts with `You are <name>` and contains the persona, or the default goal line when the persona is empty |
| Agents.JoinLines | stateful_agents/agent.py:83-85 | the joined text contains every line |
| Agents.ToolInstructions | stateful_agents/agent.py:81-94 | starts with the tools heading and lists every tool as `- name: description` |
| Agents.SystemPrompt | stateful_agents/agent.py:45-58 | starts with the given prompt, or the default one when it is empty, followed by a blank line and the memory instructions; without tools nothing follows but the final separator |
| Agents.PromptListsTools | stateful_agents/agent.py:53-58 | with tools, the prompt contains the tools heading and a line for every tool |
| Agents.SenderOrUser | stateful_agents/agent.py:101 | never empty; the user id when it is non-empty, `user` otherwise |
| Agents.Agent.constructor | stateful_agents/agent.py:27-43 | missing managers are created fresh for the agent's id; the persona block is added, truncated, only if absent, and an existing one is kept; the prompt is composed from the tools registered at that moment |
| Agents.Agent.BuildSystemPrompt | stateful_agents/agent.py:45-58 | replaces the prompt by its composition and changes no manager |
| Agents.UserMessage | stateful_agents/agent.py:99-104 | the user message goes from the user id, or `user`, to the agent, with type `text` and the metadata or `{}` |
| Agents.ReplyMessage | stateful_agents/agent.py:119-123 | the reply goes from the agent to the user id, or `user`, with empty metadata |
| Agents.Agent.SendMessage | stateful_agents/agent.py:96-126 | returns the placeholder reply; recall gets the user message and then the reply, each through the FIFO trim; the recall maximum, core memory and archival memory are unchanged |
| Agents.ExchangeLogged | stateful_agents/agent.py:96-126 | with a recall maximum of at least 2, the user message and the reply end the log in that order, and the reply goes back to the sender of the user message |
| Agents.Agent.PrepareContext | stateful_agents/agent.py:128-144 | the context carries the current prompt, the message, the core blocks, the default recall search for the message content (at most 5 messages) and one schema per tool |
| Agents.CallModel | stateful_agents/agent.py:146-150 | the reply is the fixed placeholder text, whatever the context |
| Agents.ProcessResponse | stateful_agents/agent.py:152-156 | the response is passed through unchanged |
| Agents.ContextListsTools | stateful_agents/agent.py:128-144 | the context lists the tool manager's tools by name and in order, and none without a tool manager |
| Agents.ContextLeadsWithMessage | stateful_agents/agent.py:128-144 | every recalled message mentions the message content; the recalled messages start with the message once it is the newest logged one |

## Left out

- Persistence, the HTTP server and client, and the language-model providers are not part of this model. They are I/O, transport and foreign code; `Agent.save`/`load` do nothing in the source.
- `_call_llm` and `_process_response` are modelled as the source has them, a constant reply and the identity. No response parsing or tool calling exists to model.
- `time.time()` is a parameter (`clock`, `sentAt`, `repliedAt`, `createdAt`), and timestamps are `real`. Floating-point rounding is not modelled.
- `str.lower()` is modelled for ASCII letters only. Unicode case mapping is not modelled.
- Metadata values (`Dict[str, Any]`) are modelled as text (`map<string, string>`). The model never inspects them.
- Recall messages are always `Message` records. The source's fallback to `str(message)` for other objects is not modelled.
- A custom tool handler is an opaque function of its arguments. Its side effects and exceptions are not modelled; only the three built-in handlers change state.
- Tool and mailbox errors are values (`Err`, `Some(WrongReceiver(...))`) instead of raised exceptions. The messages' wording is not modelled.
- Pydantic validation, `context_window_limit`, `active`, `reasoning_enabled` and `vector_store_initialized` are not modelled. These fields have no behaviour in the core.
- The insertion order of core blocks is not modelled. Blocks are a `map`, so `Core.CoreMemory.GetAll` and the context's core snapshot do not carry the dict order that `get_all` returns; the same holds for the order of a tool's `parameters`.
- Tool arguments are modelled as text (`Tools.Args` is `map<string, string>`). The source's keyword values can be of any type; the built-in handlers only store and look up strings.
- Agents.Agent.SendMessage: the context passed to the model is built but not returned. Its properties are stated separately by `Agents.Agent.PrepareContext`, `Agents.ContextListsTools` and `Agents.ContextLeadsWithMessage`, and the order of the two logged entries by `Agents.ExchangeLogged`.
- Communication.CommunicationManager.ReceiveMessage: states a non-empty queue only for a non-negative maximum, because a negative maximum can drop the new message itself.
