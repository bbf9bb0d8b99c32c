/**
 * The chat front end's logic: the session state and its updates, the replay of a
 * stored conversation, the accumulation of a streamed answer, titles and upload paths.
 */
module Frontend {
  import opened Wrappers
  import opened Strings
  import opened Messages
  import Backend

  datatype Role = User | Assistant

  /** One line of the displayed chat history. */
  datatype Entry = Entry(role: Role, content: string)

  const TitleLength := 30
  const UploadDir := "uploaded_files"

  /** A new conversation's title: the first thirty characters of the first input. */
  function Title(input: string): (title: string)
    ensures title <= input
    ensures |title| == if |input| < TitleLength then |input| else TitleLength
  {
    Take(input, TitleLength)
  }

  /** `s.rfind(c)`: the last index holding `c`, or -1. */
  function LastIndexOf(s: string, c: char): (r: int)
    ensures -1 <= r < |s|
    ensures r >= 0 ==> s[r] == c
    ensures forall j :: r < j < |s| ==> s[j] != c
    decreases |s|
  {
    if |s| == 0 then -1
    else if s[|s| - 1] == c then |s| - 1
    else LastIndexOf(s[..|s| - 1], c)
  }

  /**
   * POSIX `os.path.splitext`: the extension runs from the last dot of the final
   * component, unless that component has nothing but dots before it.
   */
  function SplitExt(p: string): (parts: (string, string))
    ensures parts.0 + parts.1 == p
    ensures parts.1 == "" || parts.1[0] == '.'
    ensures forall i :: 0 < i < |parts.1| ==> parts.1[i] != '.' && parts.1[i] != '/'
  {
    var sep := LastIndexOf(p, '/');
    var dot := LastIndexOf(p, '.');
    if dot > sep && exists i :: sep + 1 <= i < dot && p[i] != '.' then
      assert forall i :: dot < i < |p| ==> p[i] != '.' && p[i] != '/';
      assert forall i :: 0 < i < |p[dot..]| ==> p[dot..][i] == p[dot + i];
      (p[..dot], p[dot..])
    else
      (p, "")
  }

  /** A name made of a stem and a dotted extension splits into exactly those two. */
  lemma {:induction false} SplitExtOfStem(stem: string, ext: string)
    requires forall i :: 0 <= i < |stem| ==> stem[i] != '/'
    requires exists i :: 0 <= i < |stem| && stem[i] != '.'
    requires |ext| > 0 && ext[0] == '.'
    requires forall i :: 0 < i < |ext| ==> ext[i] != '.' && ext[i] != '/'
    ensures SplitExt(stem + ext) == (stem, ext)
  {
    var p := stem + ext;
    var sep := LastIndexOf(p, '/');
    var dot := LastIndexOf(p, '.');
    assert p[|stem|] == '.';
    assert dot == |stem|;
    assert sep == -1;
    var i :| 0 <= i < |stem| && stem[i] != '.';
    assert p[i] == stem[i];
    assert p[..dot] == stem && p[dot..] == ext;
  }

  /**
   * A name whose stem is nothing but dots (".pdf", "..pdf") has no extension:
   * the case that `SplitExtOfStem` excludes.
   */
  lemma {:induction false} DotsOnlyStemHasNoExtension(stem: string, ext: string)
    requires forall i :: 0 <= i < |stem| ==> stem[i] == '.'
    requires |ext| > 0 && ext[0] == '.'
    requires forall i :: 0 < i < |ext| ==> ext[i] != '.' && ext[i] != '/'
    ensures SplitExt(stem + ext) == (stem + ext, "")
  {
    var p := stem + ext;
    var dot := LastIndexOf(p, '.');
    assert p[|stem|] == '.';
    assert dot == |stem|;
    assert forall i :: 0 <= i < |stem| ==> p[i] == stem[i];
  }

  /** POSIX `os.path.join` of two components. */
  function PathJoin(a: string, b: string): (path: string)
    ensures |b| > 0 && b[0] == '/' ==> path == b
    ensures !(|b| > 0 && b[0] == '/') ==> a <= path && EndsWith(path, b)
  {
    if |b| > 0 && b[0] == '/' then b
    else if a == "" || EndsWith(a, "/") then a + b
    else a + "/" + b
  }

  /** Where an upload is saved: the upload directory, the thread id and the upload's extension. */
  function UploadPath(threadId: string, uploadName: string): (path: string)
    ensures EndsWith(path, threadId + SplitExt(uploadName).1)
  {
    PathJoin(UploadDir, threadId + SplitExt(uploadName).1)
  }

  /** The saved path is `uploaded_files/<thread><extension>`, whatever the upload's stem. */
  lemma UploadPathShape(threadId: string, uploadName: string)
    requires |threadId| > 0 && threadId[0] != '/'
    ensures UploadPath(threadId, uploadName) == UploadDir + "/" + threadId + SplitExt(uploadName).1
  {
  }

  /**
   * An upload named `<stem>.pdf` or `<stem>.docx` keeps its extension, so the stored
   * path is one the retrieval tool accepts.
   */
  lemma UploadKeepsExtension(threadId: string, stem: string, ext: string)
    requires |threadId| > 0 && threadId[0] != '/'
    requires forall i :: 0 <= i < |stem| ==> stem[i] != '/'
    requires exists i :: 0 <= i < |stem| && stem[i] != '.'
    requires ext == ".pdf" || ext == ".docx"
    ensures UploadPath(threadId, stem + ext) == UploadDir + "/" + threadId + ext
    ensures EndsWith(UploadPath(threadId, stem + ext), ext)
  {
    SplitExtOfStem(stem, ext);
  }

  /** Saves the upload's path for the thread and returns it; no upload, no change. */
  method HandleFileUpload(uploadName: Option<string>, threadId: string, store: Backend.ThreadStore)
    returns (path: Option<string>)
    modifies store
    ensures uploadName.None? ==> path.None? && store.files == old(store.files)
    ensures uploadName.Some? ==>
      && path == Some(UploadPath(threadId, uploadName.value))
      && store.files == old(store.files)[threadId := path.value]
    ensures store.titles == old(store.titles)
  {
    if uploadName.None? {
      return None;
    }
    var p := UploadPath(threadId, uploadName.value);
    store.SaveThreadFile(threadId, p);
    path := Some(p);
  }

  /** A thread's checkpointed values; a channel never written is absent. */
  datatype ThreadValues = ThreadValues(messages: Option<seq<Message>>, filePath: Option<string>)

  /** The stored messages of a thread, or none for a thread without them. */
  function LoadConversation(checkpoints: map<string, ThreadValues>, thread: string): (ms: seq<Message>)
    ensures thread !in checkpoints || checkpoints[thread].messages.None? ==> ms == []
    ensures thread in checkpoints && checkpoints[thread].messages.Some? ==> ms == checkpoints[thread].messages.value
  {
    if thread in checkpoints && checkpoints[thread].messages.Some? then checkpoints[thread].messages.value else []
  }

  /** What one stored message contributes to the displayed history. */
  function EntryOf(m: Message): seq<Entry>
  {
    match m
    case HumanMessage(c) => [Entry(User, c)]
    case AIMessage(c, _) => if !IsBlank(c) then [Entry(Assistant, c)] else []
    case _ => []
  }

  /** The displayed history of a stored conversation. */
  function Replay(ms: seq<Message>): seq<Entry>
  {
    if |ms| == 0 then [] else Replay(ms[..|ms| - 1]) + EntryOf(ms[|ms| - 1])
  }

  /** The replay filter loop over a stored conversation. */
  method ReplayHistory(ms: seq<Message>) returns (entries: seq<Entry>)
    ensures entries == Replay(ms)
  {
    entries := [];
    for i := 0 to |ms|
      invariant entries == Replay(ms[..i])
    {
      assert ms[..i + 1][..i] == ms[..i];
      var m := ms[i];
      if m.HumanMessage? {
        entries := entries + [Entry(User, m.content)];
      } else if m.AIMessage? {
        if m.content != "" && !IsBlank(m.content) {
          entries := entries + [Entry(Assistant, m.content)];
        }
      }
    }
    assert ms[..|ms|] == ms;
  }

  /** Replaying two stretches of history one after the other is replaying both. */
  lemma {:induction false} ReplayAppend(a: seq<Message>, b: seq<Message>)
    ensures Replay(a + b) == Replay(a) + Replay(b)
    decreases |b|
  {
    if |b| == 0 {
      assert a + b == a;
    } else {
      var b' := b[..|b| - 1];
      assert (a + b)[..|a + b| - 1] == a + b';
      ReplayAppend(a, b');
    }
  }

  /** One message in the middle of a history contributes its own entries, in place. */
  lemma ReplayAround(a: seq<Message>, m: Message, b: seq<Message>)
    ensures Replay(a + [m] + b) == Replay(a) + EntryOf(m) + Replay(b)
  {
    ReplayAppend(a + [m], b);
    ReplayAppend(a, [m]);
    assert [m][..0] == [];
  }

  /** A ToolMessage anywhere in the history adds nothing to the display. */
  lemma ReplayDropsToolMessage(a: seq<Message>, t: Message, b: seq<Message>)
    requires t.ToolMessage?
    ensures Replay(a + [t] + b) == Replay(a + b)
  {
    ReplayAround(a, t, b);
    ReplayAppend(a, b);
  }

  /** A HumanMessage shows as one user entry with its content, in place. */
  lemma ReplayKeepsHumanMessage(a: seq<Message>, c: string, b: seq<Message>)
    ensures Replay(a + [HumanMessage(c)] + b) == Replay(a) + [Entry(User, c)] + Replay(b)
  {
    ReplayAround(a, HumanMessage(c), b);
  }

  /** An AIMessage shows, in place, exactly when its content is not blank. */
  lemma ReplayAIMessage(a: seq<Message>, c: string, calls: seq<ToolCall>, b: seq<Message>)
    ensures |Replay(a + [AIMessage(c, calls)] + b)| == |Replay(a)| + |Replay(b)| + 1 <==> !IsBlank(c)
    ensures !IsBlank(c) ==> Replay(a + [AIMessage(c, calls)] + b) == Replay(a) + [Entry(Assistant, c)] + Replay(b)
    ensures IsBlank(c) ==> Replay(a + [AIMessage(c, calls)] + b) == Replay(a) + Replay(b)
  {
    ReplayAround(a, AIMessage(c, calls), b);
  }

  /** The display never has more lines than the stored conversation has messages. */
  lemma {:induction false} ReplayLength(ms: seq<Message>)
    ensures |Replay(ms)| <= |ms|
    decreases |ms|
  {
    if |ms| > 0 {
      ReplayLength(ms[..|ms| - 1]);
    }
  }

  /** What one streamed chunk adds to the answer shown so far. */
  function ChunkText(m: Message): string
  {
    if m.AIMessage? && m.content != "" then m.content else ""
  }

  /** The streamed answer: the AI chunks' contents in arrival order. */
  function Accumulated(chunks: seq<Message>): string
  {
    if |chunks| == 0 then "" else Accumulated(chunks[..|chunks| - 1]) + ChunkText(chunks[|chunks| - 1])
  }

  /** The accumulation loop over the stream. */
  method AccumulateStream(chunks: seq<Message>) returns (full: string)
    ensures full == Accumulated(chunks)
  {
    full := "";
    for i := 0 to |chunks|
      invariant full == Accumulated(chunks[..i])
    {
      assert chunks[..i + 1][..i] == chunks[..i];
      var m := chunks[i];
      if m.AIMessage? && m.content != "" {
        full := full + m.content;
      }
    }
    assert chunks[..|chunks|] == chunks;
  }

  lemma {:induction false} AccumulatedAppend(a: seq<Message>, b: seq<Message>)
    ensures Accumulated(a + b) == Accumulated(a) + Accumulated(b)
    decreases |b|
  {
    if |b| == 0 {
      assert a + b == a;
    } else {
      var b' := b[..|b| - 1];
      assert (a + b)[..|a + b| - 1] == a + b';
      AccumulatedAppend(a, b');
    }
  }

  /** A chunk that is not from the model leaves the answer as it is. */
  lemma AccumulatedSkipsOtherChunks(a: seq<Message>, m: Message, b: seq<Message>)
    requires !m.AIMessage?
    ensures Accumulated(a + [m] + b) == Accumulated(a + b)
  {
    AccumulatedAppend(a + [m], b);
    AccumulatedAppend(a, [m]);
    AccumulatedAppend(a, b);
  }

  /** An AI chunk's content lands in place, between what came before and after it. */
  lemma AccumulatedTakesAIChunk(a: seq<Message>, c: string, calls: seq<ToolCall>, b: seq<Message>)
    ensures Accumulated(a + [AIMessage(c, calls)] + b) == Accumulated(a) + c + Accumulated(b)
  {
    AccumulatedAppend(a + [AIMessage(c, calls)], b);
    AccumulatedAppend(a, [AIMessage(c, calls)]);
  }

  /** How a submitted turn's answer arrives: as a stream of chunks, or as an exception. */
  datatype StreamOutcome = Streamed(chunks: seq<Message>) | Failed(error: string)

  /** The assistant lines a turn adds to the display. */
  function AnswerEntries(outcome: StreamOutcome): (es: seq<Entry>)
    ensures |es| <= 1
    ensures forall e :: e in es ==> e.role == Assistant && !IsBlank(e.content)
    ensures outcome.Streamed? ==>
      && (|es| == 1 <==> !IsBlank(Accumulated(outcome.chunks)))
      && forall e :: e in es ==> e.content == Accumulated(outcome.chunks)
    ensures outcome.Failed? ==> es == [Entry(Assistant, "Error: " + outcome.error)]
  {
    match outcome
    case Streamed(chunks) =>
      var full := Accumulated(chunks);
      if !IsBlank(full) then [Entry(Assistant, full)] else []
    case Failed(error) =>
      var text := "Error: " + error;
      assert text[0] == 'E' && !IsSpace(text[0]);
      [Entry(Assistant, text)]
  }

  /** The per-browser session state. */
  class Session {
    var threadId: string
    var messagesHistory: seq<Entry>
    var chatThreads: map<string, string>
    var currentFilePath: Option<string>

    /** First run: a fresh thread, an empty display, every stored title and the thread's file. */
    constructor (store: Backend.ThreadStore, freshId: string)
      ensures threadId == freshId && messagesHistory == [] && chatThreads == store.titles
      ensures currentFilePath == if freshId in store.files then Some(store.files[freshId]) else None
    {
      var threads := store.AllThreads();
      var path := store.GetThreadFile(freshId);
      threadId := freshId;
      messagesHistory := [];
      chatThreads := threads;
      currentFilePath := path;
    }

    /** Records a thread's title only if the thread is not known yet: the first title wins. */
    method AddThread(thread: string, title: string, store: Backend.ThreadStore)
      modifies this, store
      ensures chatThreads == if thread in old(chatThreads) then old(chatThreads) else old(chatThreads)[thread := title]
      ensures store.titles == if thread in old(chatThreads) then old(store.titles) else old(store.titles)[thread := title]
      ensures store.files == old(store.files)
      ensures threadId == old(threadId) && messagesHistory == old(messagesHistory)
      ensures currentFilePath == old(currentFilePath)
    {
      if thread !in chatThreads {
        chatThreads := chatThreads[thread := title];
        store.SaveTitle(thread, title);
      }
    }

    /** A new chat: a fresh thread, an empty display and no document. */
    method ResetChat(freshId: string)
      modifies this
      ensures threadId == freshId && messagesHistory == [] && currentFilePath == None
      ensures chatThreads == old(chatThreads)
    {
      threadId := freshId;
      messagesHistory := [];
      currentFilePath := None;
    }

    /** Opening a stored conversation: its file and its replayed history. */
    method SelectThread(thread: string, store: Backend.ThreadStore, checkpoints: map<string, ThreadValues>)
      modifies this
      ensures threadId == thread && chatThreads == old(chatThreads)
      ensures currentFilePath == if thread in store.files then Some(store.files[thread]) else None
      ensures messagesHistory == Replay(LoadConversation(checkpoints, thread))
    {
      threadId := thread;
      currentFilePath := store.GetThreadFile(thread);
      var ms := LoadConversation(checkpoints, thread);
      messagesHistory := ReplayHistory(ms);
    }

    /** An upload is saved only while the session has no document yet. */
    method UploadFile(uploadName: Option<string>, store: Backend.ThreadStore)
      modifies this, store
      ensures uploadName.Some? && old(currentFilePath).None? ==>
        && currentFilePath == Some(UploadPath(threadId, uploadName.value))
        && store.files == old(store.files)[threadId := UploadPath(threadId, uploadName.value)]
      ensures !(uploadName.Some? && old(currentFilePath).None?) ==>
        currentFilePath == old(currentFilePath) && store.files == old(store.files)
      ensures threadId == old(threadId) && messagesHistory == old(messagesHistory)
      ensures chatThreads == old(chatThreads) && store.titles == old(store.titles)
    {
      if uploadName.Some? && currentFilePath.None? {
        var path := HandleFileUpload(uploadName, threadId, store);
        currentFilePath := path;
      }
    }

    /**
     * A submitted input: the title is set when the display is empty, the input is shown,
     * then the streamed answer if it is not blank, or the error text.
     */
    method SubmitInput(input: string, outcome: StreamOutcome, store: Backend.ThreadStore)
      modifies this, store
      ensures input == "" ==> messagesHistory == old(messagesHistory)
      ensures input != "" ==> messagesHistory == old(messagesHistory) + [Entry(User, input)] + AnswerEntries(outcome)
      ensures var titled := input != "" && |old(messagesHistory)| == 0 && threadId !in old(chatThreads);
        && chatThreads == (if titled then old(chatThreads)[threadId := Title(input)] else old(chatThreads))
        && store.titles == (if titled then old(store.titles)[threadId := Title(input)] else old(store.titles))
      ensures threadId == old(threadId) && currentFilePath == old(currentFilePath)
      ensures store.files == old(store.files)
    {
      if input == "" {
        return;
      }
      if |messagesHistory| == 0 {
        AddThread(threadId, Title(input), store);
      }
      messagesHistory := messagesHistory + [Entry(User, input)];
      match outcome {
        case Streamed(chunks) =>
          var full := AccumulateStream(chunks);
          if !IsBlank(full) {
            messagesHistory := messagesHistory + [Entry(Assistant, full)];
          }
        case Failed(error) =>
          messagesHistory := messagesHistory + [Entry(Assistant, "Error: " + error)];
      }
    }
  }
}
