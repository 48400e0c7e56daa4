/** The agent (stateful_agents/agent.py): it owns a memory manager, a tool manager and a
    mailbox, seeds a "persona" core block and composes its system prompt when it is built,
    and answers a message by recording it and the reply in recall memory. The language
    model call is a placeholder that returns a fixed text. */
module Agents {
  import opened Seqs
  import opened Messages
  import opened Core
  import opened Tools
  import opened ToolRegistry
  import opened Communication
  import opened Memory
  import Recall
  import Fifo
  import Strings

  /** What the placeholder model call answers to every context. */
  const PlaceholderReply: string := "This is a placeholder response. Actual LLM integration will be implemented later."

  /** The line used in the default prompt when the agent has no persona. */
  const DefaultGoal: string := "Your goal is to be helpful, harmless, and honest in all interactions."

  /** The memory section of the prompt. Its lines carry the eight spaces of indentation of
      the source's template. */
  const MemoryInstructions: string :=
    "# Memory Management\n        \n        You have access to different types of memory:\n        \n        1. CORE MEMORY: Critical information that must be remembered throughout all interactions.\n        2. RECALL MEMORY: Past conversations that can be searched when needed.\n        3. ARCHIVAL MEMORY: Extended knowledge storage that can be queried.\n        \n        You have tools to manage these memories. Use them when appropriate to store important information or retrieve relevant context.\n        "

  const GreetingTail: string := ", an intelligent assistant. \n        \n        "
  const ClosingLines: string := "\n        \n        Always think carefully about each request before responding."

  /** The prompt used when no system prompt is given. */
  function DefaultSystemPrompt(name: string, persona: string): (r: string)
    ensures "You are " + name <= r
    ensures Strings.Contains(r, if persona == [] then DefaultGoal else persona)
  {
    var line := if persona == [] then DefaultGoal else persona;
    Strings.ContainsInfix("You are " + name + GreetingTail, line, ClosingLines);
    Strings.PrefixOfAppend("You are " + name, GreetingTail + line + ClosingLines);
    assert "You are " + name + GreetingTail + line + ClosingLines == ("You are " + name) + (GreetingTail + line + ClosingLines);
    "You are " + name + GreetingTail + line + ClosingLines
  }

  /** The lines of `lines` joined by line breaks (Python's "\n".join). */
  function JoinLines(lines: seq<string>): (r: string)
    ensures forall i :: 0 <= i < |lines| ==> Strings.Contains(r, lines[i])
  {
    if lines == [] then ""
    else if |lines| == 1 then
      Strings.ContainsInfix("", lines[0], "");
      assert "" + lines[0] + "" == lines[0];
      lines[0]
    else
      var init, last := JoinLines(lines[..|lines| - 1]), lines[|lines| - 1];
      Strings.ContainsInfix(init + "\n", last, "");
      assert init + "\n" + last + "" == init + "\n" + last;
      forall i | 0 <= i < |lines| - 1 ensures Strings.Contains(init + "\n" + last, lines[i]) {
        assert lines[..|lines| - 1][i] == lines[i];
        Strings.ContainsWithin("", init, "\n" + last, lines[i]);
        assert "" + init + ("\n" + last) == init + "\n" + last;
      }
      init + "\n" + last
  }

  /** How a tool is listed in the prompt. */
  function ToolLine(t: Tool): string
  {
    "- " + t.name + ": " + t.description
  }

  function ToolLines(tools: seq<Tool>): (r: seq<string>)
    ensures |r| == |tools| && forall i :: 0 <= i < |tools| ==> r[i] == ToolLine(tools[i])
  {
    seq(|tools|, i requires 0 <= i < |tools| => ToolLine(tools[i]))
  }

  const ToolsHeading: string := "# Available Tools"
  const ToolsIntro: string := "\n        \n        You have access to the following tools:\n        \n        "
  const ToolsOutro: string := "\n        \n        To use a tool, you must specify the tool name and parameters in your reasoning.\n        "

  /** The tool section of the prompt: every tool as a line `- name: description`. */
  function ToolInstructions(tools: seq<Tool>): (r: string)
    ensures ToolsHeading <= r
    ensures forall i :: 0 <= i < |tools| ==> Strings.Contains(r, ToolLine(tools[i]))
  {
    var lines := ToolLines(tools);
    var listing := JoinLines(lines);
    Strings.ContainsAllWithin(ToolsHeading + ToolsIntro, listing, ToolsOutro, lines);
    Strings.PrefixOfAppend(ToolsHeading, ToolsIntro + listing + ToolsOutro);
    assert ToolsHeading + ToolsIntro + listing + ToolsOutro == ToolsHeading + (ToolsIntro + listing + ToolsOutro);
    ToolsHeading + ToolsIntro + listing + ToolsOutro
  }

  /** The tools the prompt lists: those of the tool manager, none without one. */
  function ToolsOf(manager: ToolManager?): seq<Tool>
    reads manager
  {
    if manager == null then [] else manager.tools
  }

  /** What `_build_system_prompt` writes: the given prompt, or the default one when it is
      empty, then the memory instructions, then the tool section, which is empty when there
      are no tools, separated by blank lines. */
  function SystemPrompt(given: string, name: string, persona: string, tools: seq<Tool>): (r: string)
    ensures given != [] ==> given + "\n\n" + MemoryInstructions <= r
    ensures given == [] ==> DefaultSystemPrompt(name, persona) + "\n\n" + MemoryInstructions <= r
    ensures tools == [] ==> |r| == |if given != [] then given else DefaultSystemPrompt(name, persona)| + |MemoryInstructions| + 4
  {
    var base := if given != [] then given else DefaultSystemPrompt(name, persona);
    var head := base + "\n\n" + MemoryInstructions;
    var section := if tools == [] then "" else ToolInstructions(tools);
    Strings.PrefixOfAppend(head, "\n\n" + section);
    assert head + "\n\n" + section == head + ("\n\n" + section);
    head + "\n\n" + section
  }

  /** A prompt built with tools lists every one of them under the tools heading. */
  lemma PromptListsTools(given: string, name: string, persona: string, tools: seq<Tool>)
    requires tools != []
    ensures Strings.Contains(SystemPrompt(given, name, persona, tools), ToolsHeading)
    ensures forall i :: 0 <= i < |tools| ==> Strings.Contains(SystemPrompt(given, name, persona, tools), ToolLine(tools[i]))
  {
    var base := if given != [] then given else DefaultSystemPrompt(name, persona);
    ToolSectionListed(base + "\n\n" + MemoryInstructions + "\n\n", tools);
  }

  /** The tool section keeps its heading and tool lines wherever it is placed. */
  lemma ToolSectionListed(head: string, tools: seq<Tool>)
    requires tools != []
    ensures Strings.Contains(head + ToolInstructions(tools), ToolsHeading)
    ensures forall i :: 0 <= i < |tools| ==> Strings.Contains(head + ToolInstructions(tools), ToolLine(tools[i]))
  {
    var section := ToolInstructions(tools);
    Strings.ContainsAfter(head, section, ToolsHeading);
    forall i | 0 <= i < |tools| ensures Strings.Contains(head + section, ToolLine(tools[i])) {
      Strings.ContainsAfter(head, section, ToolLine(tools[i]));
    }
  }

  /** `user_id or "user"`: an absent or empty user id falls back to "user". */
  function SenderOrUser(userId: Option<string>): (r: string)
    ensures r != []
    ensures userId.Some? && userId.value != [] ==> r == userId.value
    ensures userId.None? || userId.value == [] ==> r == "user"
  {
    if userId.Some? && userId.value != [] then userId.value else "user"
  }

  /** The record `_prepare_context` hands to the model. */
  datatype Context = Context(
    systemPrompt: string,
    coreMemory: map<string, string>,
    recallMemory: seq<Message>,
    tools: seq<Schema>,
    currentMessage: Message)

  /** The model call: a placeholder that ignores its context. */
  function CallModel(ctx: Context): (r: string)
    ensures r == PlaceholderReply && r != []
  {
    PlaceholderReply
  }

  /** Tool calls in a response are not handled: the response is returned as it is. */
  function ProcessResponse(response: string): (r: string)
    ensures r == response
  {
    response
  }

  /** The message `send_message` logs for the user's text to the agent `agentId`. */
  function UserMessage(agentId: string, message: string, userId: Option<string>, metadata: Option<Metadata>,
                       sentAt: real): (m: Message)
    ensures m.content == message && m.senderId == SenderOrUser(userId) && m.receiverId == agentId
    ensures m.messageType == DefaultMessageType && m.timestamp == sentAt && m.metadata == OrEmpty(metadata)
  {
    Message(message, SenderOrUser(userId), agentId, sentAt, DefaultMessageType, OrEmpty(metadata))
  }

  /** The message `send_message` logs for the agent's answer. */
  function ReplyMessage(agentId: string, response: string, userId: Option<string>, repliedAt: real): (m: Message)
    ensures m.content == response && m.senderId == agentId && m.receiverId == SenderOrUser(userId)
    ensures m.messageType == DefaultMessageType && m.timestamp == repliedAt && m.metadata == map[]
  {
    Message(response, agentId, SenderOrUser(userId), repliedAt, DefaultMessageType, map[])
  }

  /** With room for two messages, one exchange ends the recall log with the user's message
      followed by the reply, and the reply goes back to whoever sent the message. */
  lemma ExchangeLogged(log: seq<Message>, agentId: string, message: string, userId: Option<string>,
                       metadata: Option<Metadata>, sentAt: real, response: string, repliedAt: real, max: int)
    requires max >= 2
    ensures var user := UserMessage(agentId, message, userId, metadata, sentAt);
            var reply := ReplyMessage(agentId, response, userId, repliedAt);
            var r := Fifo.Push(Fifo.Push(log, user, max), reply, max);
            && |r| >= 2 && r[|r| - 2] == user && r[|r| - 1] == reply
            && r[|r| - 1].receiverId == r[|r| - 2].senderId
            && r[|r| - 1].senderId == r[|r| - 2].receiverId
  {
    Fifo.PushTwiceKeepsBoth(log, UserMessage(agentId, message, userId, metadata, sentAt),
                            ReplyMessage(agentId, response, userId, repliedAt), max);
  }

  class Agent {
    const id: string
    const name: string
    const model: string
    const persona: string
    var systemPrompt: string
    const memoryManager: MemoryManager
    var toolManager: ToolManager?
    var communicationManager: CommunicationManager?

    /** Builds the agent: missing managers are created for this agent's id, a "persona"
        core block holding `persona` is added unless one exists, and the system prompt is
        composed from `systemPrompt` and the tools registered at this moment. */
    constructor (id: string, name: string, model: string, persona: string, systemPrompt: string,
                 memoryManager: MemoryManager, toolManager: ToolManager?,
                 communicationManager: CommunicationManager?)
      modifies memoryManager.core
      ensures this.id == id && this.name == name && this.model == model && this.persona == persona
      ensures this.memoryManager == memoryManager
      ensures this.toolManager != null && this.communicationManager != null
      ensures toolManager != null ==> this.toolManager == toolManager
      ensures toolManager == null ==>
                fresh(this.toolManager) && this.toolManager.agentId == id && this.toolManager.tools == []
      ensures communicationManager != null ==> this.communicationManager == communicationManager
      ensures communicationManager == null ==>
                && fresh(this.communicationManager)
                && this.communicationManager.agentId == id
                && this.communicationManager.messageQueue == []
                && this.communicationManager.maxQueueSize == DefaultMaxQueueSize
      ensures memoryManager.core.maxBlockSize == old(memoryManager.core.maxBlockSize)
      ensures "persona" in old(memoryManager.core.blocks) ==>
                memoryManager.core.blocks == old(memoryManager.core.blocks)
      ensures "persona" !in old(memoryManager.core.blocks) ==>
                memoryManager.core.blocks ==
                  old(memoryManager.core.blocks)["persona" := Truncate(persona, memoryManager.core.maxBlockSize)]
      ensures this.systemPrompt == SystemPrompt(systemPrompt, name, persona, this.toolManager.tools)
    {
      this.id, this.name, this.model, this.persona := id, name, model, persona;
      this.systemPrompt := systemPrompt;
      this.memoryManager := memoryManager;
      if toolManager == null {
        this.toolManager := new ToolManager(id);
      } else {
        this.toolManager := toolManager;
      }
      if communicationManager == null {
        this.communicationManager := new CommunicationManager(id, DefaultMaxQueueSize);
      } else {
        this.communicationManager := communicationManager;
      }
      new;
      if !memoryManager.HasCoreMemory("persona") {
        memoryManager.AddCoreMemory("persona", persona);
      }
      BuildSystemPrompt();
    }

    /** Replaces the system prompt by its composition with the memory and tool sections. */
    method BuildSystemPrompt()
      modifies this
      ensures systemPrompt == SystemPrompt(old(systemPrompt), name, persona, ToolsOf(toolManager))
      ensures toolManager == old(toolManager) && communicationManager == old(communicationManager)
    {
      systemPrompt := SystemPrompt(systemPrompt, name, persona, ToolsOf(toolManager));
    }

    /** The context for answering `m`: the prompt, all core blocks, the recall search for
        the message's content with the default limit, and the tool schemas. */
    function PrepareContext(m: Message): (ctx: Context)
      reads this, memoryManager.core, memoryManager.recall, toolManager
      ensures ctx.systemPrompt == systemPrompt && ctx.currentMessage == m
      ensures ctx.coreMemory == memoryManager.core.blocks
      ensures ctx.recallMemory == Recall.Hits(memoryManager.recall.messages, m.content, Recall.DefaultSearchLimit)
      ensures |ctx.recallMemory| <= Recall.DefaultSearchLimit
      ensures |ctx.tools| == |ToolsOf(toolManager)|
    {
      Recall.HitsSpec(memoryManager.recall.messages, m.content, Recall.DefaultSearchLimit);
      Context(systemPrompt, memoryManager.core.blocks,
              Recall.Hits(memoryManager.recall.messages, m.content, Recall.DefaultSearchLimit),
              Schemas(ToolsOf(toolManager)), m)
    }

    /** Answers `message`: logs the user's message in recall memory, builds the context,
        asks the model, logs the answer and returns it. `sentAt` and `repliedAt` are the
        clock readings that stamp the two messages. */
    method SendMessage(message: string, userId: Option<string>, metadata: Option<Metadata>,
                       sentAt: real, repliedAt: real) returns (response: string)
      modifies memoryManager.recall
      ensures response == PlaceholderReply
      ensures memoryManager.recall.maxMessages == old(memoryManager.recall.maxMessages)
      ensures memoryManager.recall.messages ==
                Fifo.Push(Fifo.Push(old(memoryManager.recall.messages), UserMessage(id, message, userId, metadata, sentAt),
                                    memoryManager.recall.maxMessages),
                          ReplyMessage(id, response, userId, repliedAt), memoryManager.recall.maxMessages)
      ensures unchanged(memoryManager.core) && unchanged(memoryManager.archival)
    {
      var userMessage := UserMessage(id, message, userId, metadata, sentAt);
      memoryManager.AddToRecall(userMessage);
      var context := PrepareContext(userMessage);
      response := CallModel(context);
      response := ProcessResponse(response);
      var agentMessage := ReplyMessage(id, response, userId, repliedAt);
      memoryManager.AddToRecall(agentMessage);
    }
  }

  /** The tools of the context are those of the tool manager, by name and in order, and
      there are none without a tool manager. */
  lemma ContextListsTools(agent: Agent, m: Message)
    ensures agent.toolManager == null ==> agent.PrepareContext(m).tools == []
    ensures agent.toolManager != null ==>
              forall i :: 0 <= i < |agent.toolManager.tools| ==>
                agent.PrepareContext(m).tools[i].name == agent.toolManager.tools[i].name
  {
    var ctx := agent.PrepareContext(m);
    assert ctx.tools == Schemas(ToolsOf(agent.toolManager));
  }

  /** The recalled messages of the context all mention the message's content, and when `m`
      is the newest logged message (as it is once `send_message` has logged it) they start
      with `m`. */
  lemma ContextLeadsWithMessage(agent: Agent, m: Message)
    ensures forall i :: 0 <= i < |agent.PrepareContext(m).recallMemory| ==>
              Strings.Matches(m.content, agent.PrepareContext(m).recallMemory[i].content)
    ensures var log := agent.memoryManager.recall.messages;
            log != [] && log[|log| - 1] == m ==>
              agent.PrepareContext(m).recallMemory != [] && agent.PrepareContext(m).recallMemory[0] == m
  {
    var log := agent.memoryManager.recall.messages;
    var hits := agent.PrepareContext(m).recallMemory;
    assert hits == Recall.Hits(log, m.content, Recall.DefaultSearchLimit);
    Recall.HitsSpec(log, m.content, Recall.DefaultSearchLimit);
    if log != [] && log[|log| - 1] == m {
      Recall.LatestFirst(log, Recall.DefaultSearchLimit);
    }
  }
}
