/** The Streamlit front end: file summaries, the server session object
    (catalog fetch, the query through the turn loop, prompt and resource
    text), and the page state around a chat (new chat, the context sent with
    a question, the enabled-tool set). */
module StreamlitUi {
  import opened Outcomes
  import opened Text
  import opened Catalog
  import TurnLoop

  // ---------------------------------------------------------------------
  // process_uploaded_file

  const Unsupported := "File type not supported for content extraction"

  /** `name.split('.')[-1].lower()`. */
  function FileExtension(name: string): string
  {
    Lower(AfterLast(name, '.'))
  }

  /** The extension is the lower-cased text after the last dot: it holds no
      dot, it ends the lower-cased name, a dot comes right before it when it
      is shorter than the name, and it is the whole lower-cased name when
      there is no dot. */
  lemma FileExtensionIsSuffix(name: string)
    ensures '.' !in FileExtension(name)
    ensures EndsWith(Lower(name), FileExtension(name))
    ensures |FileExtension(name)| < |name| ==> name[|name| - |FileExtension(name)| - 1] == '.'
    ensures '.' !in name ==> FileExtension(name) == Lower(name)
  {
    var tail := AfterLast(name, '.');
    AfterLastIsLastSegment(name, '.');
    assert |FileExtension(name)| == |tail|;
    LowerSuffix(name, |name| - |tail|);
    LowerKeepsDotless(tail);
    if '.' !in name {
      assert LastIndex(name, '.') == -1;
    }
  }

  lemma LowerKeepsDotless(s: string)
    requires forall i :: 0 <= i < |s| ==> s[i] != '.'
    ensures '.' !in Lower(s)
  {
    forall i | 0 <= i < |s| ensures Lower(s)[i] != '.' {
      assert Lower(s)[i] == LowerChar(s[i]);
    }
  }

  /** The dictionary process_uploaded_file returns. */
  datatype FileSummary = FileSummary(filename: string, size: nat, content: string, wordCount: nat, fileType: string)

  /** `"".join(p + "\n" for p in parts)`, built the way the source builds it
      with `content += p + "\n"`. */
  method TerminateLines(parts: seq<string>) returns (content: string)
    ensures content == Lines(parts)
  {
    content := "";
    for i := 0 to |parts|
      invariant content == Lines(parts[..i])
    {
      assert parts[..i + 1] == parts[..i] + [parts[i]];
      assert Lines([parts[i]]) == parts[i] + "\n" by {
        assert [parts[i]][1..] == [];
      }
      LinesAppend(parts[..i], [parts[i]]);
      content := content + (parts[i] + "\n");
    }
    assert parts[..|parts|] == parts;
  }

  /** Whether extracting the text of a file with this extension raised. */
  predicate ExtractionFails(ext: string, pieces: Result<seq<string>>, decoded: Result<string>)
  {
    ((ext == "pdf" || ext == "docx") && pieces.Raised?) || (ext == "txt" && decoded.Raised?)
  }

  /** process_uploaded_file. The extractors are inputs: `pieces` is the text
      of each PDF page or DOCX paragraph, `decoded` the UTF-8 decoding of a
      text file; each either is available or raised. */
  method ProcessUploadedFile(name: string, size: nat, pieces: Result<seq<string>>, decoded: Result<string>)
    returns (info: FileSummary)
    ensures info.filename == name && info.size == size && info.fileType == FileExtension(name)
    ensures var ext := FileExtension(name);
            && ((ext == "pdf" || ext == "docx") && pieces.Ok? ==> info.content == Lines(pieces.value))
            && (ext == "txt" && decoded.Ok? ==> info.content == decoded.value)
            && (ext != "pdf" && ext != "docx" && ext != "txt" ==> info.content == Unsupported)
            && ((ext == "pdf" || ext == "docx") && pieces.Raised? ==>
                  info.content == "Error processing file: " + pieces.reason)
            && (ext == "txt" && decoded.Raised? ==> info.content == "Error processing file: " + decoded.reason)
    ensures ExtractionFails(FileExtension(name), pieces, decoded) ==> info.wordCount == 0
    ensures !ExtractionFails(FileExtension(name), pieces, decoded) ==> info.wordCount == |Words(info.content)|
  {
    var ext := FileExtension(name);
    var content := "";
    if ext == "pdf" || ext == "docx" {
      if pieces.Raised? {
        return FileSummary(name, size, "Error processing file: " + pieces.reason, 0, ext);
      }
      content := TerminateLines(pieces.value);
    } else if ext == "txt" {
      if decoded.Raised? {
        return FileSummary(name, size, "Error processing file: " + decoded.reason, 0, ext);
      }
      content := decoded.value;
    } else {
      content := Unsupported;
    }
    info := FileSummary(name, size, content, |Words(content)|, ext);
  }

  // ---------------------------------------------------------------------
  // MCPStreamlitInterface

  const NotConnected := "Please connect to the server first."
  const DefaultModel := "claude-3-7-sonnet-20250219"
  const QueryError := "Error processing query: "
  const PromptError := "Error getting prompt: "
  const ResourceError := "Error getting resource: "

  /** `model or "claude-3-7-sonnet-20250219"`: an absent or empty name picks
      the default. */
  function SelectedModel(model: Option<string>): (m: string)
    ensures m == DefaultModel || (model.Some? && m == model.value && m != "")
    ensures model.Some? && model.value != "" ==> m == model.value
  {
    if model.None? || model.value == "" then DefaultModel else model.value
  }

  function EnabledSet(enabled: seq<string>): set<string>
  {
    set i | 0 <= i < |enabled| :: enabled[i]
  }

  class StreamlitInterface {
    var availableTools: seq<ToolSpec>
    var availablePrompts: seq<PromptSpec>
    var availableResources: seq<ResourceSpec>
    var isConnected: bool

    constructor()
      ensures availableTools == [] && availablePrompts == [] && availableResources == []
      ensures !isConnected
    {
      availableTools, availablePrompts, availableResources := [], [], [];
      isConnected := false;
    }

    /** connect_to_server. Without server.py nothing changes. Otherwise the
        session is opened and the three lists are fetched in the order tools,
        prompts, resources, each assigned as soon as it arrives; the first
        exception sets `is_connected` to False and leaves the lists not yet
        fetched as they were. */
    method ConnectToServer(serverFound: bool, opening: Opening, tools: Result<seq<ToolSpec>>,
                           prompts: Result<seq<PromptSpec>>, resources: Result<seq<ResourceSpec>>)
      returns (connected: bool)
      modifies this
      ensures connected <==> serverFound && opening.Opened? && tools.Ok? && prompts.Ok? && resources.Ok?
      ensures !serverFound ==> isConnected == old(isConnected)
      ensures serverFound ==> isConnected == connected
      ensures availableTools ==
                if serverFound && opening.Opened? && tools.Ok? then tools.value else old(availableTools)
      ensures availablePrompts ==
                if serverFound && opening.Opened? && tools.Ok? && prompts.Ok? then prompts.value
                else old(availablePrompts)
      ensures availableResources == if connected then resources.value else old(availableResources)
    {
      if !serverFound {
        return false;
      }
      if opening.OpenFailed? || tools.Raised? {
        isConnected := false;
        return false;
      }
      availableTools := tools.value;
      if prompts.Raised? {
        isConnected := false;
        return false;
      }
      availablePrompts := prompts.value;
      if resources.Raised? {
        isConnected := false;
        return false;
      }
      availableResources := resources.value;
      isConnected := true;
      connected := true;
    }

    /** process_query: the query goes through the turn loop with the
        selected model and the catalog tools whose names are enabled, in a
        session opened for this query; any exception becomes the answer text
        after "Error processing query: ". */
    method ProcessQuery(query: string, enabled: seq<string>, model: Option<string>, opening: Opening,
                        script: seq<TurnLoop.ModelReply>, server: (string, TurnLoop.Json) -> TurnLoop.ToolReply)
      returns (answer: TurnLoop.Run<string>, requests: seq<TurnLoop.Request>, calls: seq<TurnLoop.ToolCall>)
      ensures !isConnected ==> answer == TurnLoop.Returns(NotConnected) && requests == [] && calls == []
      ensures isConnected && opening.OpenFailed? ==>
                answer == TurnLoop.Returns(QueryError + opening.reason) && requests == [] && calls == []
      ensures isConnected && opening.Opened? ==>
                exists end ::
                  answer == TurnLoop.Reported(end, QueryError)
                  && TurnLoop.Ended(TurnLoop.Setup(SelectedModel(model), FilterTools(availableTools, EnabledSet(enabled)),
                                                   query, script, server, false), requests, calls, end)
      ensures isConnected && opening.Opened? && TurnLoop.SingleTextFirst(script) ==>
                answer == TurnLoop.Returns(script[0].content[0].text) && |requests| == 1 && calls == []
    {
      if !isConnected {
        return TurnLoop.Returns(NotConnected), [], [];
      }
      var selected := SelectedModel(model);
      var filtered := FilterTools(availableTools, EnabledSet(enabled));
      if opening.OpenFailed? {
        return TurnLoop.Returns(QueryError + opening.reason), [], [];
      }
      var end;
      var setup := TurnLoop.Setup(selected, filtered, query, script, server, false);
      end, requests, calls := TurnLoop.RunTurn(setup);
      TurnLoop.FirstReplyDecides(setup, requests, calls, end);
      answer := TurnLoop.Reported(end, QueryError);
    }

    /** get_prompt_content: a reply with messages gives each message's text
        followed by a newline, stripped as a whole; a reply without messages
        gives its `str()`. */
    method GetPromptContent(opening: Opening, reply: Result<PromptReply>) returns (text: string)
      ensures opening.OpenFailed? ==> text == PromptError + opening.reason
      ensures opening.Opened? && reply.Raised? ==> text == PromptError + reply.reason
      ensures opening.Opened? && reply.Ok? && reply.value.messages != [] ==>
                text == Strip(Lines(ContentTexts(reply.value.messages)))
      ensures opening.Opened? && reply.Ok? && reply.value.messages == [] ==> text == reply.value.rendered
    {
      if opening.OpenFailed? {
        return PromptError + opening.reason;
      }
      if reply.Raised? {
        return PromptError + reply.reason;
      }
      if reply.value.messages == [] {
        return reply.value.rendered;
      }
      var content := TerminateLines(ContentTexts(reply.value.messages));
      text := Strip(content);
    }

    /** get_resource_content: the same joining over the items of the read. */
    method GetResourceContent(opening: Opening, reply: Result<ResourceReply>) returns (text: string)
      ensures opening.OpenFailed? ==> text == ResourceError + opening.reason
      ensures opening.Opened? && reply.Raised? ==> text == ResourceError + reply.reason
      ensures opening.Opened? && reply.Ok? && reply.value.contents != [] ==>
                text == Strip(Lines(ItemTexts(reply.value.contents)))
      ensures opening.Opened? && reply.Ok? && reply.value.contents == [] ==> text == reply.value.rendered
    {
      if opening.OpenFailed? {
        return ResourceError + opening.reason;
      }
      if reply.Raised? {
        return ResourceError + reply.reason;
      }
      if reply.value.contents == [] {
        return reply.value.rendered;
      }
      var content := TerminateLines(ItemTexts(reply.value.contents));
      text := Strip(content);
    }
  }

  /** The joined prompt text carries no surrounding whitespace and equals the
      messages joined with single newlines, stripped. */
  lemma PromptContentShape(ms: seq<MessageContent>)
    ensures var text := Strip(Lines(ContentTexts(ms)));
            && text == Strip(Join("\n", ContentTexts(ms)))
            && (text != [] ==> !IsSpace(text[0]) && !IsSpace(text[|text| - 1]))
  {
    StripLinesIsStripJoin(ContentTexts(ms));
    StripShape(Lines(ContentTexts(ms)));
  }

  // ---------------------------------------------------------------------
  // New chat

  /** The first message, whitespace collapsed, cut to 25 characters with
      "..." when longer. */
  function ChatTitle(first: string): string
  {
    Abbreviate(NormalizeSpaces(first), 25)
  }

  /** A title keeps the words of the first message when it fits; otherwise it
      is the first 25 characters of the normalised message and "..."; it is
      never longer than 28 characters. */
  lemma ChatTitleShape(first: string)
    ensures var clean := NormalizeSpaces(first);
            var title := ChatTitle(first);
            && |title| <= 28
            && Words(clean) == Words(first)
            && (|clean| <= 25 ==> title == clean && Words(title) == Words(first))
            && (|clean| > 25 ==> title[..25] == clean[..25] && title[25..] == "..." && |title| == 28)
  {
    NormalizeSpacesKeepsWords(first);
    AbbreviateShape(NormalizeSpaces(first), 25);
  }

  datatype ChatSession = ChatSession(id: nat, title: string, history: seq<ChatMessage>)

  /** An uploaded file's entry in the page state; a key the dictionary lacks
      is None. */
  datatype FileInfo = FileInfo(filename: Option<string>, name: Option<string>,
                               fullContent: Option<string>, content: Option<string>)

  datatype Attachment = Attachment(name: string, content: string)

  /** Session ids are the positions in the list of sessions. */
  predicate Numbered(sessions: seq<ChatSession>)
  {
    forall k :: 0 <= k < |sessions| ==> sessions[k].id == k
  }

  // ---------------------------------------------------------------------
  // The context sent with a question

  const DocumentHeader := "=== DOCUMENT CONTEXT ==="
  const ResourceHeader := "=== ATTACHED RESOURCE ==="
  const QuestionHeader := "\n\n=== USER QUESTION ===\n"
  const ContextLimit := 5000

  /** `file_info.get('filename', file_info.get('name', 'Unknown'))`. */
  function DocumentName(f: FileInfo): string
  {
    if f.filename.Some? then f.filename.value else if f.name.Some? then f.name.value else "Unknown"
  }

  /** `file_info.get('full_content', file_info.get('content', ''))`. */
  function DocumentContent(f: FileInfo): string
  {
    if f.fullContent.Some? then f.fullContent.value else if f.content.Some? then f.content.value else ""
  }

  /** The three context parts of one document. */
  function DocumentParts(f: FileInfo): seq<string>
  {
    ["Document: " + DocumentName(f), "Content:\n" + Abbreviate(DocumentContent(f), ContextLimit), "---"]
  }

  function FilesParts(files: seq<FileInfo>): seq<string>
  {
    if files == [] then [] else FilesParts(files[..|files| - 1]) + DocumentParts(files[|files| - 1])
  }

  function ResourceParts(r: Option<Attachment>): seq<string>
  {
    if r.None? then [] else [ResourceHeader, "Resource: " + r.value.name, "Content:\n" + r.value.content, "---"]
  }

  function ContextParts(files: seq<FileInfo>, r: Option<Attachment>): seq<string>
  {
    (if files == [] then [] else [DocumentHeader] + FilesParts(files)) + ResourceParts(r)
  }

  /** final_input. */
  function ContextText(files: seq<FileInfo>, r: Option<Attachment>, userInput: string): string
  {
    var parts := ContextParts(files, r);
    if parts == [] then userInput else Join("\n", parts) + QuestionHeader + userInput
  }

  /** Document k contributes parts 3k to 3k + 2: its name, its content cut to
      5000 characters with "..." exactly when it is longer, and "---". */
  lemma FilesPartsAt(files: seq<FileInfo>, k: nat)
    requires k < |files|
    ensures |FilesParts(files)| == 3 * |files|
    ensures FilesParts(files)[3 * k] == "Document: " + DocumentName(files[k])
    ensures var c := DocumentContent(files[k]);
            FilesParts(files)[3 * k + 1]
            == "Content:\n" + Prefix(c, ContextLimit) + (if |c| > ContextLimit then "..." else "")
    ensures FilesParts(files)[3 * k + 2] == "---"
  {
    FilesPartsSlice(files, k);
    var p := FilesParts(files)[3 * k..3 * k + 3];
    assert p[0] == FilesParts(files)[3 * k];
    assert p[1] == FilesParts(files)[3 * k + 1];
    assert p[2] == FilesParts(files)[3 * k + 2];
    AbbreviateShape(DocumentContent(files[k]), ContextLimit);
  }

  /** The parts of document k are parts 3k to 3k + 2 of all documents' parts. */
  lemma {:induction false} FilesPartsSlice(files: seq<FileInfo>, k: nat)
    requires k < |files|
    ensures |FilesParts(files)| == 3 * |files|
    ensures FilesParts(files)[3 * k..3 * k + 3] == DocumentParts(files[k])
    decreases |files|
  {
    var n := |files|;
    var before, last := FilesParts(files[..n - 1]), DocumentParts(files[n - 1]);
    assert FilesParts(files) == before + last;
    FilesPartsLength(files[..n - 1]);
    if k < n - 1 {
      FilesPartsSlice(files[..n - 1], k);
      assert files[..n - 1][k] == files[k];
      SliceOfLeft(before, last, 3 * k, 3 * k + 3);
    } else {
      SliceOfRight(before, last);
    }
  }

  lemma SliceOfLeft<T>(a: seq<T>, b: seq<T>, i: nat, j: nat)
    requires i <= j <= |a|
    ensures (a + b)[i..j] == a[i..j]
  {
  }

  lemma SliceOfRight<T>(a: seq<T>, b: seq<T>)
    ensures (a + b)[|a|..|a| + |b|] == b
  {
  }

  lemma {:induction false} FilesPartsLength(files: seq<FileInfo>)
    ensures |FilesParts(files)| == 3 * |files|
    decreases |files|
  {
    if files != [] {
      FilesPartsLength(files[..|files| - 1]);
    }
  }

  /** Without documents and without a resource the question goes out as
      typed; otherwise the context comes first (documents before the
      resource) and the question closes the text after its header. */
  lemma ContextTextShape(files: seq<FileInfo>, r: Option<Attachment>, userInput: string)
    ensures files == [] && r.None? ==> ContextText(files, r, userInput) == userInput
    ensures files != [] || r.Some? ==>
              EndsWith(ContextText(files, r, userInput), QuestionHeader + userInput)
    ensures files != [] ==> ContextParts(files, r)[0] == DocumentHeader
    ensures files == [] && r.Some? ==> ContextParts(files, r)[0] == ResourceHeader
    ensures r.Some? ==> ContextParts(files, r)[|ContextParts(files, r)| - 3..]
                        == ["Resource: " + r.value.name, "Content:\n" + r.value.content, "---"]
  {
    var parts := ContextParts(files, r);
    if parts != [] {
      var t := ContextText(files, r, userInput);
      assert t == Join("\n", parts) + (QuestionHeader + userInput);
    }
  }

  /** One document's three `context_parts.append` calls. */
  method AppendDocument(parts: seq<string>, f: FileInfo) returns (next: seq<string>)
    ensures next == parts + DocumentParts(f)
  {
    var content := DocumentContent(f);
    var shown := Prefix(content, ContextLimit) + (if |content| > ContextLimit then "..." else "");
    AbbreviateShape(content, ContextLimit);
    assert shown == Abbreviate(content, ContextLimit);
    next := parts + ["Document: " + DocumentName(f)];
    next := next + ["Content:\n" + shown];
    next := next + ["---"];
  }

  /** Builds final_input the way the page does, with `context_parts.append`. */
  method AssembleContext(files: seq<FileInfo>, r: Option<Attachment>, userInput: string)
    returns (finalInput: string)
    ensures finalInput == ContextText(files, r, userInput)
  {
    finalInput := userInput;
    var parts: seq<string> := [];
    if files != [] {
      parts := parts + [DocumentHeader];
      for i := 0 to |files|
        invariant parts == [DocumentHeader] + FilesParts(files[..i])
      {
        parts := AppendDocument(parts, files[i]);
        assert files[..i + 1][..i] == files[..i];
        assert FilesParts(files[..i + 1]) == FilesParts(files[..i]) + DocumentParts(files[i]);
      }
      assert files[..|files|] == files;
    }
    ghost var documents := parts;
    if r.Some? {
      parts := parts + [ResourceHeader];
      parts := parts + ["Resource: " + r.value.name];
      parts := parts + ["Content:\n" + r.value.content];
      parts := parts + ["---"];
    }
    assert parts == documents + ResourceParts(r);
    assert parts == ContextParts(files, r);
    if parts != [] {
      finalInput := Join("\n", parts) + QuestionHeader + userInput;
    }
  }

  // ---------------------------------------------------------------------
  // The enabled-tool set

  /** One tool's checkbox: checked (and neither "all" box ticked) adds the
      name; unchecked without "Enable all" discards it. */
  function Toggle(enabled: set<string>, name: string, isChecked: bool, disableAll: bool, enableAll: bool): set<string>
  {
    if isChecked && !disableAll && !enableAll then enabled + {name}
    else if !isChecked && !enableAll then enabled - {name}
    else enabled
  }

  /** A checkbox touches only its own tool's name, and without either "all"
      box the name ends up enabled exactly when the box is checked. */
  lemma ToggleOnlyOwnName(enabled: set<string>, name: string, isChecked: bool, disableAll: bool, enableAll: bool)
    ensures Toggle(enabled, name, isChecked, disableAll, enableAll) - {name} == enabled - {name}
    ensures !disableAll && !enableAll ==>
              (name in Toggle(enabled, name, isChecked, disableAll, enableAll) <==> isChecked)
    ensures enableAll ==> Toggle(enabled, name, isChecked, disableAll, enableAll) == enabled
  {
  }

  /** The tool panel's update of the enabled set: "Disable all" empties it,
      otherwise "Enable all" makes it the catalog's names, and otherwise each
      catalog name is enabled exactly when its box is checked while names
      outside the catalog stay as they were. `checked` gives each box's state. */
  method ToggleTools(catalog: seq<ToolSpec>, enabled: set<string>, disableAll: bool, enableAll: bool,
                     checked: string -> bool)
    returns (result: set<string>)
    ensures disableAll ==> result == {}
    ensures !disableAll && enableAll ==> result == Names(catalog)
    ensures !disableAll && !enableAll ==>
              result == (enabled - Names(catalog)) + (set n | n in Names(catalog) && checked(n))
  {
    result := enabled;
    if disableAll {
      result := {};
    } else if enableAll {
      result := Names(catalog);
    }
    for i := 0 to |catalog|
      invariant disableAll ==> result == {}
      invariant !disableAll && enableAll ==> result == Names(catalog)
      invariant !disableAll && !enableAll ==>
                  result == (enabled - Names(catalog[..i])) + (set n | n in Names(catalog[..i]) && checked(n))
    {
      var name := catalog[i].name;
      NamesSnoc(catalog, i);
      result := Toggle(result, name, checked(name), disableAll, enableAll);
    }
    assert catalog[..|catalog|] == catalog;
  }

  /** The page state the source keeps in `st.session_state`. */
  class SessionState {
    var uploadedFiles: seq<FileInfo>
    var attachedResource: Option<Attachment>
    var chatHistory: seq<ChatMessage>
    var chatSessions: seq<ChatSession>
    var currentSessionId: Option<nat>
    var enabledTools: set<string>

    constructor()
      ensures uploadedFiles == [] && attachedResource == None && chatHistory == []
      ensures chatSessions == [] && currentSessionId == None && enabledTools == {}
    {
      uploadedFiles, attachedResource, chatHistory := [], None, [];
      chatSessions, currentSessionId, enabledTools := [], None, {};
    }

    /** The "New chat" button: a non-empty history is saved as a session
        titled after its first message with the next id; the history is then
        cleared and no session is current. */
    method NewChat()
      modifies this
      ensures old(chatHistory) == [] ==> chatSessions == old(chatSessions)
      ensures old(chatHistory) != [] ==>
                chatSessions == old(chatSessions)
                                + [ChatSession(|old(chatSessions)|, ChatTitle(old(chatHistory)[0].content), old(chatHistory))]
      ensures Numbered(old(chatSessions)) ==> Numbered(chatSessions)
      ensures chatHistory == [] && currentSessionId == None
      ensures uploadedFiles == old(uploadedFiles) && attachedResource == old(attachedResource)
      ensures enabledTools == old(enabledTools)
    {
      if chatHistory != [] {
        var title := ChatTitle(chatHistory[0].content);
        chatSessions := chatSessions + [ChatSession(|chatSessions|, title, chatHistory)];
      }
      chatHistory := [];
      currentSessionId := None;
    }

    /** The text sent for a question typed on the page; an attached resource is
        used once and then cleared. */
    method PrepareQuery(userInput: string) returns (finalInput: string)
      modifies this
      ensures finalInput == ContextText(old(uploadedFiles), old(attachedResource), userInput)
      ensures attachedResource == None
      ensures uploadedFiles == old(uploadedFiles) && chatHistory == old(chatHistory)
      ensures chatSessions == old(chatSessions) && currentSessionId == old(currentSessionId)
      ensures enabledTools == old(enabledTools)
    {
      finalInput := AssembleContext(uploadedFiles, attachedResource, userInput);
      if attachedResource.Some? {
        attachedResource := None;
      }
    }

    /** The tool panel, drawn only when the catalog is non-empty. */
    method UpdateEnabledTools(catalog: seq<ToolSpec>, disableAll: bool, enableAll: bool, checked: string -> bool)
      modifies this
      ensures catalog == [] ==> enabledTools == old(enabledTools)
      ensures catalog != [] && disableAll ==> enabledTools == {}
      ensures catalog != [] && !disableAll && enableAll ==> enabledTools == Names(catalog)
      ensures catalog != [] && !disableAll && !enableAll ==>
                enabledTools == (old(enabledTools) - Names(catalog)) + (set n | n in Names(catalog) && checked(n))
      ensures uploadedFiles == old(uploadedFiles) && attachedResource == old(attachedResource)
      ensures chatHistory == old(chatHistory) && chatSessions == old(chatSessions)
      ensures currentSessionId == old(currentSessionId)
    {
      if catalog != [] {
        enabledTools := ToggleTools(catalog, enabledTools, disableAll, enableAll, checked);
      }
    }
  }
}
