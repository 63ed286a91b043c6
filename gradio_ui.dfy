/** The Gradio front end: the chat interface object (best-effort catalog
    fetch, a chat message through the turn loop, the catalog listings, prompt
    templates) and the document upload handler. */
module GradioUi {
  import opened Outcomes
  import opened Text
  import opened Catalog
  import TurnLoop

  const NoDescription := "No description available"
  const FailedToConnect := "❌ Failed to connect to MCP server. Please try again."
  const MessageError := "❌ Error processing message: "
  const TemplateError := "❌ Error using prompt template: "
  const GradioModel := "claude-3-5-sonnet-20241022"

  // ---------------------------------------------------------------------
  // The catalog as this front end stores it

  /** `getattr(x, 'description', 'No description available')`. */
  function Described(d: Option<string>): string
  {
    if d.Some? then d.value else NoDescription
  }

  function PromptDescriptors(ps: seq<WirePrompt>): (ds: seq<PromptSpec>)
    ensures |ds| == |ps|
    ensures forall i :: 0 <= i < |ps| ==> ds[i] == PromptSpec(ps[i].name, Described(ps[i].description))
  {
    seq(|ps|, i requires 0 <= i < |ps| => PromptSpec(ps[i].name, Described(ps[i].description)))
  }

  function ResourceDescriptors(rs: seq<WireResource>): (ds: seq<ResourceSpec>)
    ensures |ds| == |rs|
    ensures forall i :: 0 <= i < |rs| ==> ds[i] == ResourceSpec(rs[i].name, Described(rs[i].description), rs[i].uri)
  {
    seq(|rs|, i requires 0 <= i < |rs| => ResourceSpec(rs[i].name, Described(rs[i].description), rs[i].uri))
  }

  /** An entry of `uploaded_files`; `preview` is None when the dictionary has
      no such key. */
  datatype UploadedFile = UploadedFile(name: string, path: string, preview: Option<string>, size: nat)

  // ---------------------------------------------------------------------
  // The uploaded-files context of a chat message

  const ContextHeader := "\n\nUploaded files context:\n"

  function FileLine(f: UploadedFile): string
  {
    "- " + f.name + ": " + (if f.preview.Some? then f.preview.value else "No preview available") + "\n"
  }

  function FileLines(files: seq<UploadedFile>): (lines: seq<string>)
    ensures |lines| == |files| && forall i :: 0 <= i < |files| ==> lines[i] == FileLine(files[i])
  {
    seq(|files|, i requires 0 <= i < |files| => FileLine(files[i]))
  }

  /** context_message. */
  function FileContext(message: string, files: seq<UploadedFile>): string
  {
    if files == [] then message else message + ContextHeader + Concat(FileLines(files))
  }

  /** `s = prefix; for part in parts: s += part`. */
  method Accumulate(prefix: string, parts: seq<string>) returns (s: string)
    ensures s == prefix + Concat(parts)
  {
    s := prefix;
    for i := 0 to |parts|
      invariant s == prefix + Concat(parts[..i])
    {
      assert parts[..i + 1] == parts[..i] + [parts[i]];
      ConcatAppend(parts[..i], [parts[i]]);
      assert Concat([parts[i]]) == parts[i] by {
        assert [parts[i]][1..] == [];
      }
      s := s + parts[i];
    }
    assert parts[..|parts|] == parts;
  }

  /** Builds context_message with `file_context +=`. */
  method UploadedFilesContext(message: string, files: seq<UploadedFile>) returns (context: string)
    ensures context == FileContext(message, files)
  {
    context := message;
    if files != [] {
      var fileContext := Accumulate(ContextHeader, FileLines(files));
      context := message + fileContext;
    }
  }

  /** The message always leads the context, and is sent exactly as typed
      when, and only when, no file is uploaded. */
  lemma FileContextKeepsMessage(message: string, files: seq<UploadedFile>)
    ensures message <= FileContext(message, files)
    ensures FileContext(message, files) == message <==> files == []
  {
    if files != [] {
      assert |FileContext(message, files)| >= |message| + |ContextHeader|;
    }
  }

  /** With files uploaded, the message is followed by the header and one
      line per file, in upload order. */
  lemma FileContextShape(message: string, files: seq<UploadedFile>, k: nat)
    requires k < |files|
    ensures var c := FileContext(message, files);
            var lines := FileLines(files);
            c == message + ContextHeader + Concat(lines[..k]) + FileLine(files[k]) + Concat(lines[k + 1..])
  {
    var lines := FileLines(files);
    var front, line, back := Concat(lines[..k]), FileLine(files[k]), Concat(lines[k + 1..]);
    ConcatAround(lines, k);
    assert FileContext(message, files) == (message + ContextHeader) + ((front + line) + back);
    AppendAssoc(message + ContextHeader, front + line, back);
    AppendAssoc(message + ContextHeader, front, line);
  }

  // ---------------------------------------------------------------------
  // The catalog listings

  const NoTools := "No tools available. Please connect to the server first."
  const NoPrompts := "No prompts available. Please connect to the server first."
  const NoResources := "No resources available. Please connect to the server first."
  const ToolsHeader := "🔧 **Available Tools:**\n\n"
  const PromptsHeader := "💬 **Available Prompts:**\n\n"
  const ResourcesHeader := "📁 **Available Resources:**\n\n"

  function ToolEntry(t: ToolSpec): string
  {
    "**" + t.name + "**\n" + "Description: " + t.description + "\n"
    + (if t.inputSchema.properties.Some? then "Parameters: " + Join(", ", t.inputSchema.properties.value) + "\n" else "")
    + "\n"
  }

  function ToolEntries(tools: seq<ToolSpec>): (es: seq<string>)
    ensures |es| == |tools| && forall i :: 0 <= i < |tools| ==> es[i] == ToolEntry(tools[i])
  {
    seq(|tools|, i requires 0 <= i < |tools| => ToolEntry(tools[i]))
  }

  function PromptEntry(p: PromptSpec): string
  {
    "**" + p.name + "**\n" + "Description: " + p.description + "\n\n"
  }

  function PromptEntries(ps: seq<PromptSpec>): (es: seq<string>)
    ensures |es| == |ps| && forall i :: 0 <= i < |ps| ==> es[i] == PromptEntry(ps[i])
  {
    seq(|ps|, i requires 0 <= i < |ps| => PromptEntry(ps[i]))
  }

  function ResourceEntry(r: ResourceSpec): string
  {
    "**" + r.name + "**\n" + "URI: " + r.uri + "\n" + "Description: " + r.description + "\n\n"
  }

  function ResourceEntries(rs: seq<ResourceSpec>): (es: seq<string>)
    ensures |es| == |rs| && forall i :: 0 <= i < |rs| ==> es[i] == ResourceEntry(rs[i])
  {
    seq(|rs|, i requires 0 <= i < |rs| => ResourceEntry(rs[i]))
  }

  /** get_tools_info, get_prompts_info and get_resources_info as texts. */
  function ToolsListing(tools: seq<ToolSpec>): string
  {
    if tools == [] then NoTools else ToolsHeader + Concat(ToolEntries(tools))
  }

  function PromptsListing(ps: seq<PromptSpec>): string
  {
    if ps == [] then NoPrompts else PromptsHeader + Concat(PromptEntries(ps))
  }

  function ResourcesListing(rs: seq<ResourceSpec>): string
  {
    if rs == [] then NoResources else ResourcesHeader + Concat(ResourceEntries(rs))
  }

  /** Each tool's entry appears in catalog order, right after the entries of
      the tools before it. */
  lemma ToolsListingEntry(tools: seq<ToolSpec>, k: nat)
    requires k < |tools|
    ensures var es := ToolEntries(tools);
            ToolsListing(tools) == ToolsHeader + Concat(es[..k]) + ToolEntry(tools[k]) + Concat(es[k + 1..])
  {
    var es := ToolEntries(tools);
    HeaderAround(ToolsHeader, es, k);
    assert es[k] == ToolEntry(tools[k]);
    assert ToolsListing(tools) == ToolsHeader + Concat(es);
  }

  lemma PromptsListingEntry(ps: seq<PromptSpec>, k: nat)
    requires k < |ps|
    ensures var es := PromptEntries(ps);
            PromptsListing(ps) == PromptsHeader + Concat(es[..k]) + PromptEntry(ps[k]) + Concat(es[k + 1..])
  {
    var es := PromptEntries(ps);
    HeaderAround(PromptsHeader, es, k);
    assert es[k] == PromptEntry(ps[k]);
    assert PromptsListing(ps) == PromptsHeader + Concat(es);
  }

  lemma ResourcesListingEntry(rs: seq<ResourceSpec>, k: nat)
    requires k < |rs|
    ensures var es := ResourceEntries(rs);
            ResourcesListing(rs) == ResourcesHeader + Concat(es[..k]) + ResourceEntry(rs[k]) + Concat(es[k + 1..])
  {
    var es := ResourceEntries(rs);
    HeaderAround(ResourcesHeader, es, k);
    assert es[k] == ResourceEntry(rs[k]);
    assert ResourcesListing(rs) == ResourcesHeader + Concat(es);
  }

  /** A listing's header and entries, with entry k singled out. */
  lemma HeaderAround(header: string, es: seq<string>, k: nat)
    requires k < |es|
    ensures header + Concat(es) == header + Concat(es[..k]) + es[k] + Concat(es[k + 1..])
  {
    ConcatAround(es, k);
    var before, entry, after := Concat(es[..k]), es[k], Concat(es[k + 1..]);
    AppendAssoc(header, before + entry, after);
    AppendAssoc(header, before, entry);
  }

  // ---------------------------------------------------------------------
  // Prompt templates

  /** use_prompt_template: a reply with messages gives their texts joined by
      newlines; otherwise a direct `content` attribute; otherwise the reply's
      `str()`. */
  method UsePromptTemplate(opening: Opening, reply: Result<PromptReply>) returns (text: string)
    ensures opening.OpenFailed? ==> text == TemplateError + opening.reason
    ensures opening.Opened? && reply.Raised? ==> text == TemplateError + reply.reason
    ensures opening.Opened? && reply.Ok? && reply.value.messages != [] ==>
              text == Join("\n", ContentTexts(reply.value.messages))
    ensures opening.Opened? && reply.Ok? && reply.value.messages == [] && reply.value.content.Some? ==>
              text == reply.value.content.value
    ensures opening.Opened? && reply.Ok? && reply.value.messages == [] && reply.value.content.None? ==>
              text == reply.value.rendered
  {
    if opening.OpenFailed? {
      return TemplateError + opening.reason;
    }
    if reply.Raised? {
      return TemplateError + reply.reason;
    }
    var r := reply.value;
    if r.messages != [] {
      text := Join("\n", ContentTexts(r.messages));
    } else if r.content.Some? {
      text := r.content.value;
    } else {
      text := r.rendered;
    }
  }

  /** The joined template ends with the last message's text (no newline is
      added after it), and stripped it is the prompt text the Streamlit front
      end shows for the same messages. */
  lemma TemplateText(ms: seq<MessageContent>)
    requires ms != []
    ensures EndsWith(Join("\n", ContentTexts(ms)), ContentText(ms[|ms| - 1]))
    ensures Strip(Join("\n", ContentTexts(ms))) == Strip(Lines(ContentTexts(ms)))
  {
    var texts := ContentTexts(ms);
    assert texts[|texts| - 1] == ContentText(ms[|ms| - 1]);
    JoinEndsWithLast("\n", texts);
    StripLinesIsStripJoin(texts);
  }

  // ---------------------------------------------------------------------
  // Chat messages

  /** The history returned for a message: the history, the message as typed,
      and the assistant's text. */
  function Exchange(history: seq<ChatMessage>, message: string, answer: TurnLoop.Run<string>): TurnLoop.Run<seq<ChatMessage>>
  {
    match answer
    case Returns(text) => TurnLoop.Returns(history + [ChatMessage("user", message), ChatMessage("assistant", text)])
    case Hangs => TurnLoop.Hangs
    case NeedsMoreReplies => TurnLoop.NeedsMoreReplies
  }

  class ChatInterface {
    var availableTools: seq<ToolSpec>
    var availablePrompts: seq<PromptSpec>
    var availableResources: seq<ResourceSpec>
    var chatHistory: seq<ChatMessage>
    var isConnected: bool
    var uploadedFiles: seq<UploadedFile>

    constructor()
      ensures availableTools == [] && availablePrompts == [] && availableResources == []
      ensures chatHistory == [] && !isConnected && uploadedFiles == []
    {
      availableTools, availablePrompts, availableResources := [], [], [];
      chatHistory, isConnected, uploadedFiles := [], false, [];
    }

    /** initialize_mcp_session: once the session is open, prompts, resources
        and tools are fetched in that order, and a failure empties only the
        list it concerns; the interface is then connected. A session that
        does not open changes nothing. */
    method InitializeSession(opening: Opening, prompts: Result<seq<WirePrompt>>,
                             resources: Result<seq<WireResource>>, tools: Result<seq<ToolSpec>>)
      returns (ok: bool)
      modifies this
      ensures ok <==> opening.Opened?
      ensures opening.OpenFailed? ==>
                && availableTools == old(availableTools) && availablePrompts == old(availablePrompts)
                && availableResources == old(availableResources) && isConnected == old(isConnected)
      ensures opening.Opened? ==>
                && isConnected
                && availablePrompts == (if prompts.Ok? then PromptDescriptors(prompts.value) else [])
                && availableResources == (if resources.Ok? then ResourceDescriptors(resources.value) else [])
                && availableTools == (if tools.Ok? then tools.value else [])
      ensures chatHistory == old(chatHistory) && uploadedFiles == old(uploadedFiles)
    {
      if opening.OpenFailed? {
        return false;
      }
      availablePrompts := if prompts.Ok? then PromptDescriptors(prompts.value) else [];
      availableResources := if resources.Ok? then ResourceDescriptors(resources.value) else [];
      availableTools := if tools.Ok? then tools.value else [];
      isConnected := true;
      ok := true;
    }

    /** process_chat_message. The catalog is fetched first (`init` and the
        three listings); the turn then runs in a second session (`opening`)
        with every catalog tool, the model 'claude-3-5-sonnet-20241022', the
        message with the uploaded-files context, and the "Calling tool"
        lines added to the answer. The history grows by the message as typed
        and the answer, the failure notice, or the exception's text. */
    method ProcessChatMessage(message: string, history: seq<ChatMessage>,
                              init: Opening, prompts: Result<seq<WirePrompt>>,
                              resources: Result<seq<WireResource>>, tools: Result<seq<ToolSpec>>,
                              opening: Opening, script: seq<TurnLoop.ModelReply>,
                              server: (string, TurnLoop.Json) -> TurnLoop.ToolReply)
      returns (result: TurnLoop.Run<seq<ChatMessage>>, requests: seq<TurnLoop.Request>, calls: seq<TurnLoop.ToolCall>)
      modifies this
      ensures init.OpenFailed? ==>
                && result == TurnLoop.Returns(history + [ChatMessage("user", message), ChatMessage("assistant", FailedToConnect)])
                && requests == [] && calls == []
                && availableTools == old(availableTools) && availablePrompts == old(availablePrompts)
                && availableResources == old(availableResources) && isConnected == old(isConnected)
      ensures init.Opened? ==>
                && isConnected
                && availablePrompts == (if prompts.Ok? then PromptDescriptors(prompts.value) else [])
                && availableResources == (if resources.Ok? then ResourceDescriptors(resources.value) else [])
                && availableTools == (if tools.Ok? then tools.value else [])
      ensures init.Opened? && opening.OpenFailed? ==>
                && result == TurnLoop.Returns(history + [ChatMessage("user", message),
                                                         ChatMessage("assistant", MessageError + opening.reason)])
                && requests == [] && calls == []
      ensures init.Opened? && opening.Opened? ==>
                exists end ::
                  result == Exchange(history, message, TurnLoop.Reported(end, MessageError))
                  && TurnLoop.Ended(TurnLoop.Setup(GradioModel, availableTools, FileContext(message, uploadedFiles),
                                                   script, server, true), requests, calls, end)
      ensures result.Returns? ==>
                && |result.value| == |history| + 2 && result.value[..|history|] == history
                && result.value[|history|] == ChatMessage("user", message)
                && result.value[|history| + 1].role == "assistant"
      ensures uploadedFiles == old(uploadedFiles) && chatHistory == old(chatHistory)
    {
      var connected := InitializeSession(init, prompts, resources, tools);
      if !connected {
        return TurnLoop.Returns(history + [ChatMessage("user", message), ChatMessage("assistant", FailedToConnect)]), [], [];
      }
      if opening.OpenFailed? {
        return TurnLoop.Returns(history + [ChatMessage("user", message),
                                           ChatMessage("assistant", MessageError + opening.reason)]), [], [];
      }
      var contextMessage := UploadedFilesContext(message, uploadedFiles);
      var end;
      end, requests, calls := TurnLoop.RunTurn(TurnLoop.Setup(GradioModel, availableTools, contextMessage, script, server, true));
      result := Exchange(history, message, TurnLoop.Reported(end, MessageError));
    }

    method ToolsInfo() returns (info: string)
      ensures info == ToolsListing(availableTools)
    {
      if availableTools == [] {
        return NoTools;
      }
      info := Accumulate(ToolsHeader, ToolEntries(availableTools));
    }

    method PromptsInfo() returns (info: string)
      ensures info == PromptsListing(availablePrompts)
    {
      if availablePrompts == [] {
        return NoPrompts;
      }
      info := Accumulate(PromptsHeader, PromptEntries(availablePrompts));
    }

    method ResourcesInfo() returns (info: string)
      ensures info == ResourcesListing(availableResources)
    {
      if availableResources == [] {
        return NoResources;
      }
      info := Accumulate(ResourcesHeader, ResourceEntries(availableResources));
    }
  }

  // ---------------------------------------------------------------------
  // handle_file_upload

  /** A file handed to the upload handler: its temporary path, its size when
      the path exists (None otherwise), and what reading it as UTF-8 text
      gives. */
  datatype Upload = Upload(path: string, size: Option<nat>, read: Result<string>)

  const NoFilesSelected := "No files selected."
  const NothingProcessed := "❌ No files were successfully processed."
  const UploadHeader := "📄 **Uploaded Documents:**\n\n"

  function FileSize(u: Upload): nat
  {
    if u.size.Some? then u.size.value else 0
  }

  /** The preview of a file: a size note for PDFs and other documents, the
      first 200 characters of a text or Markdown file with "..." when longer;
      reading a text file can raise. */
  function Preview(u: Upload): Result<string>
  {
    var name := AfterLast(u.path, '/');
    var lowered := Lower(name);
    if EndsWith(lowered, ".pdf") then Ok("PDF file: " + name + " (" + NatToString(FileSize(u)) + " bytes)")
    else if EndsWith(lowered, ".txt") || EndsWith(lowered, ".md") then
      (if u.read.Raised? then Raised(u.read.reason) else Ok(Abbreviate(u.read.value, 200)))
    else Ok("Document: " + name + " (" + NatToString(FileSize(u)) + " bytes)")
  }

  /** The upload's report line: its summary, or the reading error. */
  function ReportLine(u: Upload): string
  {
    var name := AfterLast(u.path, '/');
    match Preview(u)
    case Ok(p) =>
      "✅ **" + name + "**\n" + "   Size: " + NatToString(FileSize(u)) + " bytes\n"
      + "   Path: " + u.path + "\n" + "   Preview: " + Prefix(p, 100) + "...\n\n"
    case Raised(e) => "❌ **" + name + "**: Error reading file - " + e + "\n\n"
  }

  /** The `uploaded_files` entry of an upload whose preview could be made. */
  function Entry(u: Upload): Option<UploadedFile>
  {
    var preview := Preview(u);
    if preview.Ok? then Some(UploadedFile(AfterLast(u.path, '/'), u.path, Some(preview.value), FileSize(u)))
    else None
  }

  function EntryOf(file: Option<Upload>): Option<UploadedFile>
  {
    if file.Some? then Entry(file.value) else None
  }

  /** The present values, in order. */
  function Kept<T>(xs: seq<Option<T>>): seq<T>
  {
    if xs == [] then []
    else Kept(xs[..|xs| - 1]) + (if xs[|xs| - 1].Some? then [xs[|xs| - 1].value] else [])
  }

  lemma {:induction false} KeptMembers<T>(xs: seq<Option<T>>, x: T)
    ensures x in Kept(xs) <==> Some(x) in xs
    ensures |Kept(xs)| <= |xs|
    decreases |xs|
  {
    if xs != [] {
      var init := xs[..|xs| - 1];
      KeptMembers(init, x);
      assert xs == init + [xs[|xs| - 1]];
    }
  }

  /** The files that were processed, in order: the non-None uploads whose
      preview could be made. */
  function Processed(files: seq<Option<Upload>>): seq<UploadedFile>
  {
    Kept(seq(|files|, i requires 0 <= i < |files| => EntryOf(files[i])))
  }

  lemma ProcessedSnoc(files: seq<Option<Upload>>, i: nat)
    requires i < |files|
    ensures Processed(files[..i + 1])
            == Processed(files[..i]) + (if EntryOf(files[i]).Some? then [EntryOf(files[i]).value] else [])
  {
    var xs := seq(|files[..i + 1]|, j requires 0 <= j < |files[..i + 1]| => EntryOf(files[..i + 1][j]));
    assert xs[..|xs| - 1] == seq(|files[..i]|, j requires 0 <= j < |files[..i]| => EntryOf(files[..i][j]));
  }

  function Report(files: seq<Option<Upload>>): string
  {
    if files == [] then ""
    else
      var last := files[|files| - 1];
      Report(files[..|files| - 1]) + (if last.Some? then ReportLine(last.value) else "")
  }

  /** One selected file: its entry when processed, and the line it adds to
      the report, built with `uploaded_info +=`. */
  method ProcessUpload(u: Upload) returns (entry: Option<UploadedFile>, line: string)
    ensures entry == Entry(u) && line == ReportLine(u)
  {
    var name := AfterLast(u.path, '/');
    var size := FileSize(u);
    var preview := Preview(u);
    if preview.Ok? {
      entry := Some(UploadedFile(name, u.path, Some(preview.value), size));
      line := "✅ **" + name + "**\n";
      line := line + "   Size: " + NatToString(size) + " bytes\n";
      line := line + "   Path: " + u.path + "\n";
      line := line + "   Preview: " + Prefix(preview.value, 100) + "...\n\n";
    } else {
      entry := None;
      line := "❌ **" + name + "**: Error reading file - " + preview.reason + "\n\n";
    }
  }

  /** The loop of handle_file_upload over the selected files. */
  method ProcessUploads(files: seq<Option<Upload>>) returns (processed: seq<UploadedFile>, info: string)
    ensures processed == Processed(files)
    ensures info == UploadHeader + Report(files)
  {
    info := UploadHeader;
    processed := [];
    for i := 0 to |files|
      invariant processed == Processed(files[..i])
      invariant info == UploadHeader + Report(files[..i])
    {
      assert files[..i + 1][..i] == files[..i];
      ProcessedSnoc(files, i);
      assert Report(files[..i + 1]) == Report(files[..i]) + (if files[i].Some? then ReportLine(files[i].value) else "");
      if files[i].Some? {
        var entry, line := ProcessUpload(files[i].value);
        if entry.Some? {
          processed := processed + [entry.value];
        }
        AppendAssoc(UploadHeader, Report(files[..i]), line);
        info := info + line;
      }
    }
    assert files[..|files|] == files;
  }

  /** A processed entry comes from a selected file whose preview could be
      made, and every such file is processed. */
  lemma ProcessedMembers(files: seq<Option<Upload>>, f: UploadedFile)
    ensures f in Processed(files) <==> exists i :: 0 <= i < |files| && EntryOf(files[i]) == Some(f)
    ensures |Processed(files)| <= |files|
  {
    var xs := seq(|files|, i requires 0 <= i < |files| => EntryOf(files[i]));
    KeptMembers(xs, f);
    if exists i :: 0 <= i < |files| && EntryOf(files[i]) == Some(f) {
      var i :| 0 <= i < |files| && EntryOf(files[i]) == Some(f);
      assert xs[i] == Some(f);
    }
  }

  lemma TextPreview(u: Upload)
    requires var lowered := Lower(AfterLast(u.path, '/'));
             !EndsWith(lowered, ".pdf") && (EndsWith(lowered, ".txt") || EndsWith(lowered, ".md"))
    requires u.read.Ok?
    ensures var c := u.read.value;
            && (|c| <= 200 ==> Preview(u) == Ok(c))
            && (|c| > 200 ==> Preview(u) == Ok(c[..200] + "...") && |Preview(u).value| == 203)
  {
    assert Preview(u) == Ok(Abbreviate(u.read.value, 200));
    AbbreviateShape(u.read.value, 200);
  }

  /** The chat messages announcing processed files. */
  function UploadNotice(processed: seq<UploadedFile>): string
  {
    "📎 Uploaded " + NatToString(|processed|) + " document(s): "
    + Join(", ", seq(|processed|, i requires 0 <= i < |processed| => processed[i].name))
  }

  function PathLines(processed: seq<UploadedFile>): (lines: seq<string>)
    ensures |lines| == |processed|
    ensures forall i :: 0 <= i < |processed| ==> lines[i] == "• **" + processed[i].name + "**: `" + processed[i].path + "`\n"
  {
    seq(|processed|, i requires 0 <= i < |processed| => "• **" + processed[i].name + "**: `" + processed[i].path + "`\n")
  }

  const UploadExample := "\nExample: 'Analyze the document at path: [file_path]' or 'What is the summary of [filename]?'"

  function UploadReply(processed: seq<UploadedFile>): string
  {
    "✅ Successfully processed " + NatToString(|processed|)
    + " document(s). You can now ask questions about these files or request analysis using their full paths:\n\n"
    + Concat(PathLines(processed)) + UploadExample
  }

  /** handle_file_upload; `files` stands for both an empty selection and
      None. The interface keeps exactly the processed files; the history
      grows by two messages when a file was processed and is otherwise
      returned unchanged. */
  method HandleFileUpload(ui: ChatInterface, files: seq<Option<Upload>>, history: seq<ChatMessage>)
    returns (newHistory: seq<ChatMessage>, info: string)
    modifies ui
    ensures files == [] ==> newHistory == history && info == NoFilesSelected && ui.uploadedFiles == old(ui.uploadedFiles)
    ensures files != [] ==> ui.uploadedFiles == Processed(files)
    ensures files != [] && Processed(files) != [] ==>
              && newHistory == history + [ChatMessage("user", UploadNotice(Processed(files))),
                                          ChatMessage("assistant", UploadReply(Processed(files)))]
              && info == UploadHeader + Report(files)
    ensures files != [] && Processed(files) == [] ==> newHistory == history && info == NothingProcessed
    ensures ui.availableTools == old(ui.availableTools) && ui.availablePrompts == old(ui.availablePrompts)
    ensures ui.availableResources == old(ui.availableResources) && ui.isConnected == old(ui.isConnected)
    ensures ui.chatHistory == old(ui.chatHistory)
  {
    if files == [] {
      return history, NoFilesSelected;
    }
    var processed, uploadedInfo := ProcessUploads(files);
    ui.uploadedFiles := processed;
    if processed != [] {
      var userMessage := UploadNotice(processed);
      var assistantMessage := Accumulate("✅ Successfully processed " + NatToString(|processed|)
                                         + " document(s). You can now ask questions about these files or request analysis using their full paths:\n\n",
                                         PathLines(processed));
      assistantMessage := assistantMessage + UploadExample;
      newHistory := history + [ChatMessage("user", userMessage), ChatMessage("assistant", assistantMessage)];
      info := uploadedInfo;
    } else {
      newHistory, info := history, NothingProcessed;
    }
  }
}
