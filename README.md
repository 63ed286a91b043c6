# BroadAxis MCP chat front ends and auth back end, in Dafny

The repository has two chat front ends and a small Flask back end.

- **Streamlit front end** (`streamlit_ui_fixed.py`) and **Gradio front end** (`mcp-gradio-ui.py`).
  - Both connect to an MCP tool server, list its tools, prompts and resources, and run a tool-calling loop against the Anthropic messages API.
  - The loop walks the blocks of the response in hand. A tool use runs through `session.call_tool`, its result is fed back, and the model's next reply becomes the response in hand, while the walk goes on over the old blocks.
    - A text block clears the loop's flag when the response in hand at that moment has one block. The walk still finishes the old response's blocks, and the tool uses among them are still called; the flag only prevents the next pass.
    - A tool round clears the flag in the same way when the model's reply is a single text block.
    - Tool uses in a reply that arrives in the middle of a walk run only if a later pass of the loop starts from that reply.
  - Around the loop they assemble strings:
    - the document and resource context of a question;
    - the uploaded-file context;
    - chat titles;
    - catalog listings;
    - prompt and resource text.
  - They also keep page state: enabled tools, chat sessions and uploaded files.
- **Flask back end** (`app.py`).
  - It validates credentials with two regular expressions.
  - It registers users and logs them in against a `users` table.
  - It tags uploaded files.

The model consists of the following modules.

- `Outcomes` (outcomes.dfy): `Option`, a `Result` whose error side is an exception's text, and the outcome of opening an MCP session.
- `Text` (text.dfy): the Python string operations the code relies on. This includes `str.split()`, `" ".join`, `str.strip()`, slicing with `"..."`, `split('.')[-1]` and `lower()`, each with lemmas.
- `Catalog` (catalog.dfy): the tool, prompt and resource descriptors, and the tool filter by enabled name.
- `TurnLoop` (turn_loop.dfy): the loop the two front ends share.
  - The model API is a script of replies, one per model call.
  - The tool server is a function from a tool name and its arguments to its result or exception.
  - The fixed inputs of a turn form one `Setup` record: model, tools, query, script, server, and whether tool calls are announced in the answer (the Gradio variant).
  - A reference reads the replies alone:
    - `Rounds` is the assistant entry of every tool call the replies lead to, in order;
    - `Answer` is the text they lead to;
    - `Spinning` says whether they lead to a pass that repeats forever.
  - The loop is imperative and is proved against that reference.
    - `WalkStep` is the body of the `for content in response.content` loop. Its tool-use branch is `ToolBranch` and `ToolStep`.
    - `WalkResponse` is that `for` loop.
    - `Pass` is one iteration of the `while process_query` loop.
    - `Passes` is the `while` loop itself.
    - `RunTurn` is the first model call followed by the loop.
  - The `for` loop keeps walking the *old* response after `response` is reassigned, as the source does.
  - The shared `assistant_content` list is applied explicitly: every assistant entry added during the current pass is rewritten to the list's latest contents.
  - After a pass that makes no model call and leaves `process_query` set, the same steps repeat forever: no model call, the flag still set, and the answer growing by the same text on every pass. The model detects this exactly and reports it as `Spins`.
- `StreamlitUi` (streamlit_ui.dfy):
  - `process_uploaded_file`;
  - the `MCPStreamlitInterface` class (connect, query, prompt and resource content);
  - context assembly;
  - chat titles and the new-chat action;
  - the tool panel's enabled-tool updates.
- `GradioUi` (gradio_ui.dfy):
  - the `MCPChatInterface` class (session initialisation with per-category fallback, `process_chat_message`, the `get_*_info` listings, `use_prompt_template`);
  - `handle_file_upload`.
- `AuthApp` (auth_app.dfy):
  - `validate_credentials`, with both regular expressions as character predicates;
  - the users table as a set of records;
  - `user_exists`, `save_user` and `check_login`;
  - the `/api/register` and `/api/login` decisions;
  - the `/upload` tag rule and file list.

Outside parties become inputs:
- Whether an MCP session opens is an `Opening`.
- What a listing, prompt, resource or file read yields is a `Result`.
- The model replies are a script.
- `call_tool` is a function.

## Model

| member | source | states |
|---|---|---|
| Catalog.FilterToolsMembers | streamlit_ui_fixed.py:438 | a tool is sent exactly when it is in the catalog and its name is enabled |
| Catalog.FilterToolsAppend | streamlit_ui_fixed.py:438 | filtering keeps catalog order: filtering a concatenation is the concatenation of the filtered parts |
| Catalog.FilterToolsExtremes | streamlit_ui_fixed.py:438 | with every name enabled the whole catalog is sent; with none of them enabled no tool is sent |
| TurnLoop.Refresh | streamlit_ui_fixed.py:584-593 | every assistant entry added in the current pass holds the shared list's contents; no other entry changes |
| TurnLoop.RefreshExtends | streamlit_ui_fixed.py:584-593 | appending to the shared list only lets earlier history entries grow in place; nothing is removed or reordered |
| TurnLoop.RefreshPast | streamlit_ui_fixed.py:584-593 | before the pass's first tool use the shared list is in no history entry, so appending to it changes no entry |
| TurnLoop.CallsInNone | streamlit_ui_fixed.py:585-600 | blocks ask for no tool call exactly when none of them is a tool use |
| TurnLoop.EntryAt | streamlit_ui_fixed.py:585-593 | the assistant entry of a tool use is the response's blocks up to and including it, and comes after the entries of the tool uses before it |
| TurnLoop.EntryOfReply | streamlit_ui_fixed.py:585-593 | each assistant entry of a pass is a prefix of that pass's reply ending in one of its tool uses |
| TurnLoop.RoundsFromAsked | streamlit_ui_fixed.py:583-620 | the m-th tool call from reply s on is asked for by a tool use of a reply r with s <= r <= s + m, its entry is that reply up to that tool use, and r is the reply of the pass that makes the call |
| TurnLoop.RoundsAsked | streamlit_ui_fixed.py:583-620 | tool call k of the replies is asked for by a tool use of a reply r <= k, the reply of the pass that makes it, and its assistant entry is that reply up to that tool use |
| TurnLoop.OwnersFromLength | streamlit_ui_fixed.py:583-620 | every planned tool call has the pass that makes it: there are as many passes listed as rounds |
| TurnLoop.ShapedRefresh | streamlit_ui_fixed.py:584-593 | growing the shared list of the current pass changes exactly its own entries in the history; the entries of earlier passes and all tool results stay as they were |
| TurnLoop.ShapedAppend | streamlit_ui_fixed.py:591-608 | a tool use of the current pass appends the shared list as its entry and then a user message with its own call's result under the block's id, and the history stays exact |
| TurnLoop.ShapedNewPass | streamlit_ui_fixed.py:583-593 | once a pass is over its list holds that pass's whole reply, and the next pass starts with a new, empty list that is in no entry yet |
| TurnLoop.HistoriesNext | streamlit_ui_fixed.py:610-616 | a model call whose history is exact for the calls made so far keeps every history passed to the model exact |
| TurnLoop.OwnersNext | streamlit_ui_fixed.py:583-620 | after a pass the loop goes on from, the calls still to come belong to the later passes, and every call made so far belongs to that pass or an earlier one |
| TurnLoop.SharedListPlan | streamlit_ui_fixed.py:583-620 | a first reply with two tool uses leads to the rounds `[u1]` and `[u1, u2]`, both made in the first pass, and to the answer after both announcements |
| TurnLoop.SharedList | streamlit_ui_fixed.py:583-620 | a finished turn over those replies makes the calls `a(x)` and `b(y)`, and its third model call carries both tool uses in both assistant entries, each followed by the result of its own call only |
| TurnLoop.QuietPass | streamlit_ui_fixed.py:586-590 | a pass with no tool call over a response that has not exactly one block never clears the flag |
| TurnLoop.LoneTextDrops | streamlit_ui_fixed.py:586-590 | a pass over a response of one text block clears the flag |
| TurnLoop.FirstReplyPlan | streamlit_ui_fixed.py:583-620 | a first reply with no tool use leads to no tool call; a single text block is the whole answer and no spin; any other number of text blocks leads to a spin |
| TurnLoop.FirstReplyDecides | streamlit_ui_fixed.py:572-622 | a first reply of one text block finishes the turn with that text after one model call and no tool call; a first reply with no tool use and not one block spins after one model call |
| TurnLoop.OneToolRoundPlan | mcp-gradio-ui.py:139-180 | replies asking for tool `a` with input `x` and then answering `t` lead to exactly that round and to the answer `t`, after the "Calling tool: a" line when tool calls are announced |
| TurnLoop.MidPassReplyPlan | streamlit_ui_fixed.py:585-620 | when the first reply asks for tool `a` and then holds `t`, and the tool round brings a reply that is a lone tool use of `b`, the replies lead to the one round of `a` and the answer `t` (after the announcement, if any), with no spin: the tool use of `b` is never walked |
| TurnLoop.OneToolRound | streamlit_ui_fixed.py:564-622 | a finished turn over those replies made exactly the call `a(x)`; its second model call carried the query, the tool use and the tool's result under the block's id; the answer is the announcement, if any, then `t` |
| TurnLoop.FirstRound | streamlit_ui_fixed.py:591-617 | the second model call carries the query, the first round's assistant entry and the first tool call's result |
| TurnLoop.ConversationNext | streamlit_ui_fixed.py:591-617 | a tool round trip followed by the next model call keeps the exchanges invariant: the call is the one its round asks for, and its entry and result come next in the history |
| TurnLoop.ConversationMoreCalls | streamlit_ui_fixed.py:591-600 | a tool call made after the last model call, the one the next round asks for, keeps the exchanges invariant |
| TurnLoop.ToolStep | streamlit_ui_fixed.py:591-620 | a tool use appends the shared list, calls exactly the tool the block asks for, appends one user message with one tool_result carrying the block's id, and calls the model again; `announce` adds the Gradio "Calling tool" line; an exception stops the turn |
| TurnLoop.WalkStep | streamlit_ui_fixed.py:585-620 | one block of a response: the calls grow by exactly the call a tool use asks for; a text block makes no model call and shows the longer shared list in the history; unless the turn stops, the answer and the flag move on as the reference's pass text and flag rule say, and the history is unchanged while no tool use was met |
| TurnLoop.ToolBranch | streamlit_ui_fixed.py:591-620 | the tool-use branch calls exactly the tool the block asks for; it stops the turn only as Stopped says; otherwise it makes exactly one more model call and the answer and the flag change as Piece and Drops say |
| TurnLoop.WalkResponse | streamlit_ui_fixed.py:585-620 | the `for` loop over the old response: unless the turn stops, the calls made are exactly those the response's tool uses ask for, in order, with one model call each; the answer grows by the pass's text and the flag is cleared as the pass says; with no tool use it never stops and leaves the history, the model calls and the response unchanged |
| TurnLoop.Pass | streamlit_ui_fixed.py:583-620 | one iteration: an early stop as Stopped says; spinning is reported exactly when the pass made no model call and left the flag set, and then the replies spin; a pass that clears the flag leaves the planned answer after every planned call; otherwise the loop goes on, on plan, after at least one more model call |
| TurnLoop.PassGoesOn | streamlit_ui_fixed.py:583-620 | after a pass that called a tool and kept the flag, the rounds, answer and spin still to come are those the replies lead to from the new response on |
| TurnLoop.PassFinishes | streamlit_ui_fixed.py:583-622 | a pass that cleared the flag ends with the planned answer after every planned call, and the replies do not spin |
| TurnLoop.PassSpins | streamlit_ui_fixed.py:583-590 | a pass that made no call and kept the flag is the replies' spin, on a response with no tool use and not exactly one block |
| TurnLoop.Passes | streamlit_ui_fixed.py:583-622 | the `while` loop: the calls made are the planned rounds' calls, each with its entry and result in the next history; it finishes with the planned answer after every planned call, spins only when the replies spin, and stops early only as Stopped says |
| TurnLoop.RunTurn | streamlit_ui_fixed.py:564-622 | the first request holds only the query; request k carries 2k+1 messages of the same model and tools, and each history extends the last; the model call after tool call k carries its exact history: the query, then for each call j <= k its assistant entry and a user message with its own result under the block's id. The entry of a call of k's pass is round k, the shared list as it stood then; the entry of a call of an earlier pass is that pass's whole reply. Tool call k is the one round k asks for; a finished turn made every call the replies lead to and answers exactly what they lead to; it finishes only when the replies do not spin and spins only when they do |
| StreamlitUi.FileExtensionIsSuffix | streamlit_ui_fixed.py:24 | the extension is a dot-free suffix of the lower-cased name with a dot right before it when it is shorter than the name, and the whole lower-cased name when there is no dot |
| StreamlitUi.TerminateLines | streamlit_ui_fixed.py:29-36 | the `content +=` loop gives every piece followed by a newline |
| StreamlitUi.ProcessUploadedFile | streamlit_ui_fixed.py:21-54 | pdf and docx give their pieces newline-terminated, txt the decoded text, other types the fixed notice; an extraction exception gives the error text and word count 0; otherwise the word count is the number of whitespace-separated words |
| StreamlitUi.SelectedModel | streamlit_ui_fixed.py:435 | an absent or empty model name picks claude-3-7-sonnet-20250219; otherwise the name given |
| StreamlitUi.StreamlitInterface.ConnectToServer | streamlit_ui_fixed.py:368-427 | a missing server file changes nothing; otherwise connected exactly when opening and all three listings succeed; each list is replaced in order up to the first failure |
| StreamlitUi.StreamlitInterface.ProcessQuery | streamlit_ui_fixed.py:429-624 | not connected gives the fixed notice with no calls; a failed session gives the error text; otherwise the answer is the turn loop's, run with the selected model and the filtered tools, so the calls and the answer are those the replies lead to; a single-text first reply is the answer after one model call and no tool call |
| StreamlitUi.StreamlitInterface.GetPromptContent | streamlit_ui_fixed.py:626-651 | message texts each followed by a newline, then stripped; no messages gives the rendered result; exceptions give the error text |
| StreamlitUi.StreamlitInterface.GetResourceContent | streamlit_ui_fixed.py:653-675 | item texts each followed by a newline, then stripped; no items gives the rendered result; exceptions give the error text |
| StreamlitUi.PromptContentShape | streamlit_ui_fixed.py:637-646 | the prompt text has no surrounding whitespace and equals the stripped newline-join of the message texts |
| StreamlitUi.ChatTitleShape | streamlit_ui_fixed.py:780-781 | the title keeps the words of a first message of at most 25 normalised characters; a longer one is its first 25 characters plus "..."; the title is at most 28 characters |
| StreamlitUi.AppendDocument | streamlit_ui_fixed.py:1250-1256 | one document's three appends add exactly that document's parts |
| StreamlitUi.FilesPartsAt | streamlit_ui_fixed.py:1248-1256 | document k gives parts 3k to 3k+2: its name, its content cut to 5000 characters with "..." exactly when longer, and "---" |
| StreamlitUi.ContextTextShape | streamlit_ui_fixed.py:1244-1268 | with no documents and no resource the question goes out unchanged; otherwise the parts joined by newlines, then the question header and the question; the resource section comes last and is not truncated |
| StreamlitUi.AssembleContext | streamlit_ui_fixed.py:1244-1268 | the `context_parts.append` code builds exactly the context text |
| StreamlitUi.ToggleOnlyOwnName | streamlit_ui_fixed.py:1319-1322 | a checkbox touches only its own tool's name: checked adds it, unchecked discards it |
| StreamlitUi.ToggleTools | streamlit_ui_fixed.py:1302-1322 | "Disable all" empties the set; "Enable all" makes it exactly the catalog names; otherwise the catalog names become exactly the checked ones and other names are kept |
| StreamlitUi.SessionState.NewChat | streamlit_ui_fixed.py:775-790 | a non-empty history is saved as a session with the next id and its title; the history and the current id are cleared; session ids stay positional |
| StreamlitUi.SessionState.PrepareQuery | streamlit_ui_fixed.py:1244-1268 | the query sent is the context text of the state before the call, and the attached resource is cleared |
| StreamlitUi.SessionState.UpdateEnabledTools | streamlit_ui_fixed.py:1293-1322 | an empty catalog leaves the set alone; otherwise the panel's update as ToggleTools states |
| GradioUi.ChatInterface.InitializeSession | mcp-gradio-ui.py:40-97 | a failed session changes nothing; otherwise each failed listing empties only its own list, the others are fetched, and the interface becomes connected |
| GradioUi.FileContextKeepsMessage | mcp-gradio-ui.py:121-126 | the message always leads the context, and is the whole context exactly when no file is uploaded |
| GradioUi.FileContextShape | mcp-gradio-ui.py:121-126 | with files uploaded, the context is the message, the context header, then one "- name: preview" line per file, in order |
| GradioUi.UploadedFilesContext | mcp-gradio-ui.py:121-126 | the `file_context +=` loop builds exactly that context text |
| GradioUi.ChatInterface.ProcessChatMessage | mcp-gradio-ui.py:99-186 | a failed initialisation gives history plus the user message and the fixed failure message, and leaves the three lists and the connection flag unchanged; otherwise the turn loop runs on all catalog tools with the file context and announced tool calls, so the calls and the answer are those the replies lead to; a returned result is history plus exactly two messages, the original user message and the answer or error text |
| GradioUi.ToolsListingEntry | mcp-gradio-ui.py:188-200 | the tools listing is the header followed by one entry per tool in order, each naming the tool, its description and any parameters |
| GradioUi.PromptsListingEntry | mcp-gradio-ui.py:202-211 | the prompts listing is the header followed by one name-and-description entry per prompt in order |
| GradioUi.ResourcesListingEntry | mcp-gradio-ui.py:244-254 | the resources listing is the header followed by one name, URI and description entry per resource in order |
| GradioUi.ChatInterface.ToolsInfo | mcp-gradio-ui.py:188-200 | the `info +=` loop builds exactly the tools listing, or the fixed notice when there are no tools |
| GradioUi.ChatInterface.PromptsInfo | mcp-gradio-ui.py:202-211 | the `info +=` loop builds exactly the prompts listing, or the fixed notice |
| GradioUi.ChatInterface.ResourcesInfo | mcp-gradio-ui.py:244-254 | the `info +=` loop builds exactly the resources listing, or the fixed notice |
| GradioUi.UsePromptTemplate | mcp-gradio-ui.py:213-242 | the message texts joined by newlines; else the direct content; else the rendered result; exceptions give the error text |
| GradioUi.TemplateText | mcp-gradio-ui.py:224-229 | the joined template ends with the last message's text (no trailing newline) and strips to the same text as the Streamlit prompt content |
| GradioUi.ProcessUpload | mcp-gradio-ui.py:362-392 | one file's entry (none when reading it raised) and its report lines |
| GradioUi.ProcessUploads | mcp-gradio-ui.py:358-392 | the loop keeps exactly the files that were read successfully, in order, and builds the upload report |
| GradioUi.ProcessedMembers | mcp-gradio-ui.py:361-384 | a file is kept exactly when it was given and reading it did not raise; never more files than given |
| GradioUi.TextPreview | mcp-gradio-ui.py:369-373 | a .txt or .md preview is the first 200 characters, with "..." exactly when the file is longer |
| GradioUi.HandleFileUpload | mcp-gradio-ui.py:353-415 | no files leaves the history unchanged; otherwise the processed files are stored; history grows by the two upload messages exactly when some file was processed |
| AuthApp.EmailAcceptedIff | app.py:37-38 | the e-mail check passes exactly when there is one '@', something before it, and a '.' strictly inside the part after it |
| AuthApp.EmailNewlineChangesNothing | app.py:37 | the `$` allowance for a final newline accepts nothing that the plain pattern rejects |
| AuthApp.PasswordPatternIff | app.py:40-41 | the password pattern matches exactly a first line of at least 8 characters, holding a lower-case letter, an upper-case letter, a digit and one of !@#$%^&* |
| AuthApp.ValidateCredentialsCorrect | app.py:35-47 | no errors exactly when all three checks pass; each error is present exactly when its check fails; at most three errors, in the order e-mail, password, mismatch; the mismatch check is skipped without a repeat |
| AuthApp.RegisterDecision | app.py:86-102 | registration succeeds exactly when all fields are present, validation passes and the e-mail is new, and then adds exactly one record; otherwise nothing is stored; a refusal is a 400 with errors |
| AuthApp.RegisterKeepsEmailsUnique | app.py:23-28 | registration keeps the e-mail column unique |
| AuthApp.LoginAfterRegister | app.py:64-70 | login succeeds exactly when some record has that e-mail and password; a fresh registration can log in, and repeating it is refused as a taken e-mail |
| AuthApp.UserTable.UserExists | app.py:49-55 | true exactly when some record has the e-mail |
| AuthApp.UserTable.SaveUser | app.py:57-62 | inserts the record unless the name is NULL or the e-mail is taken, and then stores nothing |
| AuthApp.UserTable.CheckLogin | app.py:64-70 | true exactly when some record has that e-mail and that password |
| AuthApp.UserTable.ApiRegister | app.py:86-102 | the reply and the new table are the register decision applied to the old table |
| AuthApp.UserTable.ApiLogin | app.py:104-113 | success with the fixed message, or a 401 with the fixed error |
| AuthApp.UploadTag | app.py:127 | the tag is "rfp" exactly when the type is "document", and "rfi" otherwise |
| AuthApp.UploadList.Upload | app.py:122-129 | a missing part is a 400; a failed save raises; otherwise exactly one entry with its tag is appended and the fixed reply returned |
| Text.NatToStringRoundTrip | mcp-gradio-ui.py:369 | the decimal rendering of a size reads back as the same number and has no leading zero |
| Text.AbbreviateShape | mcp-gradio-ui.py:373 | a text is kept when it fits; otherwise it is cut to the limit with "..." appended |
| Text.WordsAreWords | streamlit_ui_fixed.py:44 | every piece `split()` gives is non-empty and holds no whitespace |
| Text.NormalizeSpacesKeepsWords | streamlit_ui_fixed.py:780 | whitespace normalisation keeps the words and is idempotent |
| Text.StripShape | streamlit_ui_fixed.py:646 | the stripped text is a slice with no surrounding whitespace, and only whitespace was cut |

## Left out

- The Streamlit and Gradio page layout, CSS and widget wiring are UI and are not modelled. This includes the show_tools, show_prompts and show_resources buttons, the prompt-template buttons, `respond` and `clear_chat`.
- During a question, `chat_history` is updated around `process_query` with the displayed message and the reply (streamlit_ui_fixed.py:1270-1285). This is display bookkeeping and is not modelled.
- The Anthropic client and the MCP subprocess transport are inputs, not code. The client is a script of replies and the transport an `Opening`.
- asyncio and `nest_asyncio` are concurrency plumbing and are not modelled.
- PDF and DOCX extraction, and reading uploaded bytes, are foreign library calls. Their results are inputs (`pieces`, `decoded`, `read`).
- The file-system checks behind `os.path.exists` and `getsize` are inputs too.
- The system prompt text and `max_tokens` are passed to every model call unchanged. They do not change the loop, so they are not modelled.
- The response carries only `text` and `tool_use` blocks; other block types are not modelled.
- Tool results are JSON text; `result.content` is not interpreted.
- Arguments are passed as given. The `arguments or {}` defaulting of prompt arguments is not modelled.
- TurnLoop.RunTurn: when the script of replies runs out, the loop ends with `OutOfScript`, which a front end reports as `NeedsMoreReplies`. This is a property of the finite script, not of the source, which would go on calling the model.
- TurnLoop.Refresh: the aliasing of `assistant_content` is modelled by value, rewriting the entries that share the list. It is not modelled by reference.
- In the source, a response with two tool uses puts the same list into the history twice. In the next model call both assistant entries then hold both tool uses, and each is followed by the result of only one of them. The model reproduces this: `Histories` (through `Shaped` and `HistoryEntry`) pins every history entry exactly, RunTurn ensures it, and SharedList works it out for a reply with two tool uses. That is why `Paired` checks only the last block of the entry, in the model call made right after it.
- `MCPStreamlitInterface.process_uploaded_file` (streamlit_ui_fixed.py:677-717) base64-encodes the file and parses a tool's JSON reply. Both are foreign calls, so it is not modelled.
- Descriptions are strings. A `None` description from the server prints as `None` in Python, and that is not modelled.
- Messages returned by `get_prompt` always have `content` in MCP, so the `hasattr(msg, 'content')` check is not modelled.
- An attached resource is either absent or has a name and content. An empty dict (falsy in Python) is not modelled.
- Duplicate widget keys are not modelled; Streamlit rejects them at run time.
- add_users.py and update_db.py are one-shot seed and migration scripts and are not modelled.
- The `/chat`, `/files`, page and logout routes only serve files or echo text, and are not modelled.
- The `id` column of the users table is not modelled.
- Missing JSON keys are modelled (Option). `request.get_json()` returning None for a non-JSON body, and non-string JSON values, are not.
- AuthApp.PasswordPatternIff: `\d` and `[a-z]`/`[A-Z]` are modelled as ASCII. Python's `\d` also matches other Unicode decimal digits.
- Text.Lower: lower-casing is ASCII only. Python's `str.lower()` also maps non-ASCII letters.
- StreamlitUi.ChatTitleShape: it states that a title of 25 characters or fewer is kept. The converse does not hold, because a cut title can equal a 28-character message.
- The model's integers are unbounded; the source's are Python integers, which are as well.
