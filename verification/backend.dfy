/**
 * The orchestration back end: the message preparation done before every model call,
 * the two-node chat/tools graph, and the per-thread metadata tables.
 */
module Backend {
  import opened Wrappers
  import opened Strings
  import opened Messages

  /** Marker whose presence in the last ToolMessage marks a retrieval result. */
  const RagMarker := "RETRIEVED PASSAGES"

  /** Marker (compared after lower-casing) of the document guidance note. */
  const DocNoteMarker := "document has been uploaded"

  const GuidanceHead := "A document has been uploaded at: "

  /** Guidance injected when a document is attached and no note about it is present. */
  function GuidanceText(path: string): string
  {
    GuidanceHead + GuidanceBody(path)
  }

  function GuidanceBody(path: string): string
  {
    path
    + "\n\nWhen the user asks questions about the document:\n- Use the RAG tool with file_path='"
    + path
    + "' and query=<user's question>\n- The RAG tool will return multiple relevant passages\n"
    + "- You MUST read and synthesize ALL passages, not just the first one\n\n"
    + "For general questions unrelated to the document, answer normally."
  }

  /** Instruction injected just before a retrieval result. */
  const SynthesisText :=
    "CRITICAL SYNTHESIS INSTRUCTIONS:\n\nYou have received multiple passages from the document. You MUST:\n\n"
    + "1. READ EVERY SINGLE PASSAGE - Not just the first one!\n"
    + "2. IDENTIFY all distinct topics, problem statements, and themes\n"
    + "3. SYNTHESIZE the information into a coherent, comprehensive answer\n"
    + "4. STRUCTURE your response logically (use bullet points if listing multiple items)\n"
    + "5. DO NOT simply paraphrase the first passage - integrate ALL information\n\n"
    + "If the user asked \"what is this about?\", describe the ENTIRE document's content and structure.\n"
    + "If asking for a specific item (like \"4th problem statement\"), identify it precisely from the passages.\n\n"
    + "Remember: Multiple passages = Multiple pieces of information to combine!"

  /** `state.get("file_path")` is truthy: present and not the empty string. */
  predicate HasFile(filePath: Option<string>)
  {
    filePath.Some? && filePath.value != ""
  }

  /** The last message is a ToolMessage whose content holds the retrieval marker. */
  predicate IsAfterRag(ms: seq<Message>)
  {
    |ms| > 0 && ms[|ms| - 1].ToolMessage? && Contains(ms[|ms| - 1].content, RagMarker)
  }

  /** A SystemMessage whose lower-cased content mentions the uploaded document. */
  predicate IsDocNote(m: Message)
  {
    m.SystemMessage? && Contains(Lower(m.content), DocNoteMarker)
  }

  predicate HasDocNote(ms: seq<Message>)
  {
    exists i :: 0 <= i < |ms| && IsDocNote(ms[i])
  }

  /** `r` is `ms` with one SystemMessage inserted at index `j`, everything else in order. */
  predicate SystemInsertedAt(ms: seq<Message>, r: seq<Message>, j: int)
  {
    0 <= j <= |ms| && |r| == |ms| + 1 && r[j].SystemMessage? && r[..j] == ms[..j] && r[j + 1..] == ms[j..]
  }

  /**
   * The list handed to the model: the history, possibly with one guidance message in
   * front or one synthesis message just before a trailing retrieval result.
   */
  function PrepareMessages(ms: seq<Message>, filePath: Option<string>): (r: seq<Message>)
    ensures r == ms || SystemInsertedAt(ms, r, 0) || SystemInsertedAt(ms, r, |ms| - 1)
  {
    if !HasFile(filePath) then ms
    else if !HasDocNote(ms) && !IsAfterRag(ms) then [SystemMessage(GuidanceText(filePath.value))] + ms
    else if IsAfterRag(ms) then ms[..|ms| - 1] + [SystemMessage(SynthesisText)] + [ms[|ms| - 1]]
    else ms
  }

  /** Without an attached document the model sees the history exactly. */
  lemma PrepareWithoutFile(ms: seq<Message>, filePath: Option<string>)
    requires !HasFile(filePath)
    ensures PrepareMessages(ms, filePath) == ms
  {
  }

  /** A document with no note yet and no retrieval result pending: guidance goes first. */
  lemma PrepareAddsGuidance(ms: seq<Message>, path: string)
    requires path != "" && !HasDocNote(ms) && !IsAfterRag(ms)
    ensures PrepareMessages(ms, Some(path)) == [SystemMessage(GuidanceText(path))] + ms
  {
  }

  /** A note already present and no retrieval result pending: nothing is injected. */
  lemma PrepareKeepsExistingNote(ms: seq<Message>, path: string)
    requires path != "" && HasDocNote(ms) && !IsAfterRag(ms)
    ensures PrepareMessages(ms, Some(path)) == ms
  {
  }

  /**
   * After a retrieval result the synthesis note sits second to last, the retrieval
   * result stays last, and every earlier message is untouched.
   */
  lemma PrepareAddsSynthesis(ms: seq<Message>, path: string)
    requires path != "" && IsAfterRag(ms)
    ensures var r := PrepareMessages(ms, Some(path));
      && |r| == |ms| + 1
      && r[|r| - 2] == SystemMessage(SynthesisText)
      && r[|r| - 1] == ms[|ms| - 1]
      && r[..|ms| - 1] == ms[..|ms| - 1]
  {
  }

  /** An empty history is never a retrieval result; it only ever receives guidance. */
  lemma PrepareEmpty(filePath: Option<string>)
    ensures !IsAfterRag([])
    ensures PrepareMessages([], filePath) == if HasFile(filePath) then [SystemMessage(GuidanceText(filePath.value))] else []
  {
  }

  /** The injected guidance is itself recognised as the document note. */
  lemma GuidanceIsDocNote(path: string)
    ensures IsDocNote(SystemMessage(GuidanceText(path)))
  {
    var g := GuidanceText(path);
    assert g == GuidanceHead + GuidanceBody(path);
    HeadedTextIsDocNote(g);
  }

  /** Any text starting with the guidance head mentions the uploaded document. */
  lemma HeadedTextIsDocNote(s: string)
    requires GuidanceHead <= s
    ensures Contains(Lower(s), DocNoteMarker)
  {
    var low := Lower(s);
    MarkerInHead();
    forall k | 0 <= k < |DocNoteMarker|
      ensures low[2 + k] == DocNoteMarker[k]
    {
      MarkerCharIsLower(k);
      assert s[2 + k] == GuidanceHead[2 + k];
    }
    assert low[2..2 + |DocNoteMarker|] == DocNoteMarker;
    ContainsAt(low, DocNoteMarker, 2);
  }

  lemma MarkerInHead()
    ensures forall k :: 0 <= k < |DocNoteMarker| ==> GuidanceHead[2 + k] == DocNoteMarker[k]
  {
  }

  lemma MarkerCharIsLower(k: nat)
    requires k < |DocNoteMarker|
    ensures LowerChar(DocNoteMarker[k]) == DocNoteMarker[k]
  {
    assert DocNoteMarker[k] == ' ' || 'a' <= DocNoteMarker[k] <= 'z';
  }

  /**
   * Preparing an already prepared list injects nothing more, unless a retrieval
   * result is pending (that case injects one synthesis note per call).
   */
  lemma PrepareIdempotent(ms: seq<Message>, filePath: Option<string>)
    requires !IsAfterRag(ms)
    ensures PrepareMessages(PrepareMessages(ms, filePath), filePath) == PrepareMessages(ms, filePath)
  {
    var r := PrepareMessages(ms, filePath);
    if HasFile(filePath) && !HasDocNote(ms) {
      GuidanceIsDocNote(filePath.value);
      assert IsDocNote(r[0]);
      assert HasDocNote(r);
      assert !IsAfterRag(r);
    }
  }

  /** The model's answer: text and the tool calls it requests. */
  datatype Reply = Reply(content: string, toolCalls: seq<ToolCall>)

  /** The graph's nodes; `Start` leads to `Chat`, `End` is terminal. */
  datatype Node = Start | Chat | Tools | End

  /** The graph state: the node about to run, the persisted history and the attached file. */
  datatype GraphState = GraphState(node: Node, messages: seq<Message>, filePath: Option<string>)

  /**
   * One chat node run: the model (a parameter) sees the prepared list, and the state
   * update holds only its answer, never an injected message.
   */
  function ChatNode(messages: seq<Message>, filePath: Option<string>, llm: seq<Message> -> Reply): (update: seq<Message>)
    ensures |update| == 1 && update[0].AIMessage?
    ensures forall m :: m in update ==> !m.SystemMessage?
    ensures var reply := llm(PrepareMessages(messages, filePath));
      update[0].content == reply.content && update[0].toolCalls == reply.toolCalls
  {
    var reply := llm(PrepareMessages(messages, filePath));
    [AIMessage(reply.content, reply.toolCalls)]
  }

  /** The tool calls carried by the latest message, if it is from the model. */
  function PendingCalls(ms: seq<Message>): seq<ToolCall>
  {
    if |ms| > 0 && ms[|ms| - 1].AIMessage? then ms[|ms| - 1].toolCalls else []
  }

  /** The routing after the chat node: tools when the latest answer requests any, otherwise the end. */
  function RouteAfterChat(ms: seq<Message>): (n: Node)
    ensures n == Tools <==> |PendingCalls(ms)| > 0
    ensures n == Tools || n == End
  {
    if |PendingCalls(ms)| > 0 then Tools else End
  }

  /** One ToolMessage per requested call, in request order, answering that call's identifier. */
  function ToolResults(calls: seq<ToolCall>, invoke: ToolCall -> string): (results: seq<Message>)
    ensures |results| == |calls|
    ensures forall i :: 0 <= i < |calls| ==>
      results[i] == ToolMessage(invoke(calls[i]), calls[i].name, calls[i].id)
  {
    if |calls| == 0 then [] else [ToolMessage(invoke(calls[0]), calls[0].name, calls[0].id)] + ToolResults(calls[1..], invoke)
  }

  /** One transition of the graph; the history only ever grows at its end. */
  function Step(g: GraphState, llm: seq<Message> -> Reply, invoke: ToolCall -> string): (g': GraphState)
    ensures g.messages <= g'.messages && g'.filePath == g.filePath
  {
    match g.node
    case Start => GraphState(Chat, g.messages, g.filePath)
    case Chat =>
      var ms := g.messages + ChatNode(g.messages, g.filePath, llm);
      GraphState(RouteAfterChat(ms), ms, g.filePath)
    case Tools => GraphState(Chat, g.messages + ToolResults(PendingCalls(g.messages), invoke), g.filePath)
    case End => g
  }

  /** `n` transitions in a row. */
  function Steps(g: GraphState, n: nat, llm: seq<Message> -> Reply, invoke: ToolCall -> string): (r: GraphState)
    ensures g.messages <= r.messages && r.filePath == g.filePath
    ensures g.node == End ==> r == g
    decreases n
  {
    if n == 0 then g else Steps(Step(g, llm, invoke), n - 1, llm, invoke)
  }

  /** From the chat node control goes to the tools exactly when the answer requests tool calls. */
  lemma ChatRoutesOnToolCalls(g: GraphState, llm: seq<Message> -> Reply, invoke: ToolCall -> string)
    requires g.node == Chat
    ensures var reply := llm(PrepareMessages(g.messages, g.filePath));
      Step(g, llm, invoke).node == (if |reply.toolCalls| > 0 then Tools else End)
  {
    var update := ChatNode(g.messages, g.filePath, llm);
    var ms := g.messages + update;
    assert ms[|ms| - 1] == update[0];
  }

  /** From the tools node control always returns to the chat node. */
  lemma ToolsReturnToChat(g: GraphState, llm: seq<Message> -> Reply, invoke: ToolCall -> string)
    requires g.node == Tools
    ensures Step(g, llm, invoke).node == Chat
  {
  }

  /**
   * A chat step that requests tools is followed by exactly one ToolMessage per call,
   * in request order, before the model runs again.
   */
  lemma EveryCallAnsweredOnce(g: GraphState, llm: seq<Message> -> Reply, invoke: ToolCall -> string)
    requires g.node == Chat
    requires |llm(PrepareMessages(g.messages, g.filePath)).toolCalls| > 0
    ensures var reply := llm(PrepareMessages(g.messages, g.filePath));
      var g2 := Steps(g, 2, llm, invoke);
      && g2.node == Chat
      && g2.messages == g.messages + [AIMessage(reply.content, reply.toolCalls)] + ToolResults(reply.toolCalls, invoke)
  {
    var g1 := Step(g, llm, invoke);
    assert Steps(g, 2, llm, invoke) == Steps(g1, 1, llm, invoke);
    assert Steps(g1, 1, llm, invoke) == Step(g1, llm, invoke);
  }

  /** Once the end is reached nothing changes and the model is not asked again. */
  lemma {:induction false} EndIsFinal(g: GraphState, n: nat, llm: seq<Message> -> Reply, invoke: ToolCall -> string)
    requires g.node == End
    ensures Steps(g, n, llm, invoke) == g
  {
    if n > 0 {
      EndIsFinal(Step(g, llm, invoke), n - 1, llm, invoke);
    }
  }

  /** A single step appends no SystemMessage. */
  lemma StepAppendsNoSystem(g: GraphState, llm: seq<Message> -> Reply, invoke: ToolCall -> string)
    ensures var g1 := Step(g, llm, invoke);
      forall i :: |g.messages| <= i < |g1.messages| ==> !g1.messages[i].SystemMessage?
  {
    var g1 := Step(g, llm, invoke);
    if g.node == Tools {
      var added := ToolResults(PendingCalls(g.messages), invoke);
      assert g1.messages == g.messages + added;
      forall i | |g.messages| <= i < |g1.messages|
        ensures !g1.messages[i].SystemMessage?
      {
        assert g1.messages[i] == added[i - |g.messages|];
      }
    } else if g.node == Chat {
      var added := ChatNode(g.messages, g.filePath, llm);
      assert g1.messages == g.messages + added;
      forall i | |g.messages| <= i < |g1.messages|
        ensures !g1.messages[i].SystemMessage?
      {
        assert g1.messages[i] == added[i - |g.messages|];
      }
    }
  }

  /**
   * Any number of steps keeps the history as a prefix and appends no SystemMessage:
   * injected guidance and synthesis notes are never persisted.
   */
  lemma {:induction false} InjectionsNeverPersisted(g: GraphState, n: nat, llm: seq<Message> -> Reply, invoke: ToolCall -> string)
    decreases n
    ensures var g' := Steps(g, n, llm, invoke);
      && g.messages <= g'.messages
      && forall i :: |g.messages| <= i < |g'.messages| ==> !g'.messages[i].SystemMessage?
  {
    if n > 0 {
      var g1 := Step(g, llm, invoke);
      StepAppendsNoSystem(g, llm, invoke);
      InjectionsNeverPersisted(g1, n - 1, llm, invoke);
      var g' := Steps(g1, n - 1, llm, invoke);
      assert Steps(g, n, llm, invoke) == g';
      forall i | |g.messages| <= i < |g'.messages|
        ensures !g'.messages[i].SystemMessage?
      {
        if i < |g1.messages| {
          assert g'.messages[i] == g1.messages[i];
        }
      }
    }
  }

  /** The `chat_titles` and `thread_files` tables, keyed by thread identifier. */
  class ThreadStore {
    var titles: map<string, string>
    var files: map<string, string>

    /** Opens the database file with the rows it already holds (none for a new file). */
    constructor (storedTitles: map<string, string>, storedFiles: map<string, string>)
      ensures titles == storedTitles && files == storedFiles
    {
      titles := storedTitles;
      files := storedFiles;
    }

    /** Every thread with its title. */
    method AllThreads() returns (threads: map<string, string>)
      ensures threads == titles
    {
      threads := titles;
    }

    /** INSERT OR REPLACE into `thread_files`: `thread` now maps to `path`, other threads are unaffected. */
    method SaveThreadFile(thread: string, path: string)
      modifies this
      ensures files == old(files)[thread := path] && titles == old(titles)
      ensures forall t :: t != thread ==> (t in files <==> t in old(files))
      ensures forall t :: t != thread && t in files ==> files[t] == old(files)[t]
    {
      files := files[thread := path];
    }

    /** INSERT OR REPLACE into `chat_titles`. */
    method SaveTitle(thread: string, title: string)
      modifies this
      ensures titles == old(titles)[thread := title] && files == old(files)
    {
      titles := titles[thread := title];
    }

    /** The file saved last for `thread`, or None for a thread never saved. */
    method GetThreadFile(thread: string) returns (path: Option<string>)
      ensures path.None? <==> thread !in files
      ensures path.Some? ==> path.value == files[thread]
    {
      if thread in files {
        path := Some(files[thread]);
      } else {
        path := None;
      }
    }
  }

  /** Saving then reading a thread's file gives the saved path; a later save overwrites it. */
  method SaveThenGet(store: ThreadStore, thread: string, first: string, second: string, other: string)
    requires other != thread
    modifies store
    ensures store.files == old(store.files)[thread := second]
  {
    var before := store.GetThreadFile(other);
    store.SaveThreadFile(thread, first);
    var p := store.GetThreadFile(thread);
    assert p == Some(first);
    store.SaveThreadFile(thread, second);
    p := store.GetThreadFile(thread);
    assert p == Some(second);
    var after := store.GetThreadFile(other);
    assert after == before;
  }
}
