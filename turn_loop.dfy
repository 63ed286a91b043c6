/** The tool-calling turn loop shared by the two chat front ends
    (`MCPStreamlitInterface.process_query` and
    `MCPChatInterface.process_chat_message`).

    The model API is a script: the i-th model call receives the i-th reply of
    `script`. The tool server is a function from a tool name and its JSON
    arguments to what `session.call_tool` returns or raises.

    The source keeps one `assistant_content` list per pass over a response,
    puts that same list into the history once per tool use of the pass, and
    keeps appending blocks to it afterwards, so every history entry that holds
    it grows with it. The model keeps the history as a value and performs that
    growth explicitly: every assistant entry added during the current pass is
    rewritten to the list's new contents (see Refresh).

    The loop is proved against a reference that reads the replies alone
    (Rounds, Answer, Spinning): which tool calls they lead to, with which
    assistant entries, and what the answer is. */
module TurnLoop {
  import opened Catalog
  import Outcomes

  /** Tool arguments and tool output, as JSON text. */
  type Json = string

  /** A content block of a model response. */
  datatype Block = Text(text: string) | ToolUse(id: string, name: string, input: Json)

  datatype ToolResult = ToolResult(toolUseId: string, content: Json)

  /** A message of the conversation sent to the model. */
  datatype Message = UserText(text: string) | UserResults(results: seq<ToolResult>) | Assistant(content: seq<Block>)

  /** The history as the model API receives it at a call. */
  type History = seq<Message>

  datatype Request = Request(model: string, tools: seq<ToolSpec>, messages: History)

  /** What one model call produced. */
  datatype ModelReply = Reply(content: seq<Block>) | ApiError(reason: string)

  /** What one `session.call_tool` produced. */
  datatype ToolReply = ToolOk(content: Json) | ToolRaised(reason: string)

  datatype ToolCall = ToolCall(name: string, input: Json)

  /** The fixed inputs of a turn: the model and the tools sent with every
      model call, the user's query, the script of model replies, the tool
      server, and whether each tool call is announced in the answer (the
      Gradio variant). */
  datatype Setup = Setup(model: string, tools: seq<ToolSpec>, query: string, script: seq<ModelReply>,
                         server: (string, Json) -> ToolReply, announce: bool)

  /** How the loop ended: with the accumulated text, with an exception from the
      model API or the tool server, by spinning forever (the source's `while`
      repeats the same steps with no model call and the flag still set, while
      the accumulated answer keeps growing), or because it asked the model for
      more replies than the script holds. */
  datatype LoopEnd = Finished(answer: string) | Raised(reason: string) | Spins | OutOfScript

  /** What a front end's call returns, given how the loop ended: a value, no
      value because the loop never stops, or no value because the script ran
      out first. */
  datatype Run<T> = Returns(value: T) | Hangs | NeedsMoreReplies

  /** The text a front end returns for a loop end: the answer, or the error
      prefix followed by the exception's text. */
  function Reported(end: LoopEnd, errorPrefix: string): Run<string>
  {
    match end
    case Finished(answer) => Returns(answer)
    case Raised(reason) => Returns(errorPrefix + reason)
    case Spins => Hangs
    case OutOfScript => NeedsMoreReplies
  }

  // ---------------------------------------------------------------------
  // The history

  /** Every assistant entry from index `start` on holds the list `items`. */
  predicate Aliased(ms: History, start: nat, items: seq<Block>)
  {
    forall i :: start <= i < |ms| && ms[i].Assistant? ==> ms[i].content == items
  }

  /** The history after the list shared by the entries from `start` on has
      become `items`. */
  function Refresh(ms: History, start: nat, items: seq<Block>): (r: History)
    ensures |r| == |ms| && Aliased(r, start, items)
    ensures forall i :: start <= i < |ms| && ms[i].Assistant? ==> r[i] == Assistant(items)
    ensures forall i :: 0 <= i < |ms| && (i < start || !ms[i].Assistant?) ==> r[i] == ms[i]
  {
    seq(|ms|, i requires 0 <= i < |ms| => if i >= start && ms[i].Assistant? then Assistant(items) else ms[i])
  }

  /** With no entry from `start` on, the shared list is in no entry. */
  lemma {:induction false} RefreshPast(ms: History, start: nat, items: seq<Block>)
    requires |ms| <= start
    ensures Refresh(ms, start, items) == ms
  {
    var r := Refresh(ms, start, items);
    assert forall i :: 0 <= i < |ms| ==> r[i] == ms[i];
  }

  /** An entry of a later history is the same entry, or the same assistant
      message whose block list has grown. */
  predicate Grows(a: Message, b: Message)
  {
    a == b || (a.Assistant? && b.Assistant? && a.content <= b.content)
  }

  /** b keeps every entry of a, in place, and adds entries only at the end. */
  predicate Extends(a: History, b: History)
  {
    |a| <= |b| && forall i :: 0 <= i < |a| ==> Grows(a[i], b[i])
  }

  lemma {:induction false} ExtendsTransitive(a: History, b: History, c: History)
    requires Extends(a, b) && Extends(b, c)
    ensures Extends(a, c)
  {
    forall i | 0 <= i < |a| ensures Grows(a[i], c[i]) {
      assert Grows(a[i], b[i]) && Grows(b[i], c[i]);
    }
  }

  /** Appending to the shared list only lets the history grow. */
  lemma {:induction false} RefreshExtends(ms: History, start: nat, items: seq<Block>, more: seq<Block>)
    requires Aliased(ms, start, items) && items <= more
    ensures Extends(ms, Refresh(ms, start, more))
  {
    var r := Refresh(ms, start, more);
    forall i | 0 <= i < |ms| ensures Grows(ms[i], r[i]) {
      if i >= start && ms[i].Assistant? {
        assert ms[i].content == items;
      }
    }
  }

  lemma {:induction false} ExtendsAppend(ms: History, extra: History)
    ensures Extends(ms, ms + extra)
  {
    forall i | 0 <= i < |ms| ensures Grows(ms[i], (ms + extra)[i]) {
      assert (ms + extra)[i] == ms[i];
    }
  }

  // ---------------------------------------------------------------------
  // What the replies lead to

  predicate NoToolUse(blocks: seq<Block>)
  {
    forall i :: 0 <= i < |blocks| ==> blocks[i].Text?
  }

  /** The tool calls the tool uses among the first j blocks ask for, in
      order. */
  function CallsIn(blocks: seq<Block>, j: nat): (r: seq<ToolCall>)
    requires j <= |blocks|
    ensures |r| <= j
  {
    if j == 0 then []
    else
      var b := blocks[j - 1];
      CallsIn(blocks, j - 1) + (if b.ToolUse? then [ToolCall(b.name, b.input)] else [])
  }

  /** The first j blocks ask for no tool call exactly when none of them is a
      tool use. */
  lemma {:induction false} CallsInNone(blocks: seq<Block>, j: nat)
    requires j <= |blocks|
    ensures |CallsIn(blocks, j)| == 0 <==> forall i :: 0 <= i < j ==> blocks[i].Text?
  {
    if j > 0 {
      CallsInNone(blocks, j - 1);
    }
  }

  /** The assistant entry each tool use among the first j blocks puts into
      the history when a pass reaches it: the blocks up to and including
      that tool use. */
  function Entries(blocks: seq<Block>, j: nat): (r: seq<seq<Block>>)
    requires j <= |blocks|
    ensures |r| == |CallsIn(blocks, j)|
  {
    if j == 0 then []
    else Entries(blocks, j - 1) + (if blocks[j - 1].ToolUse? then [blocks[..j]] else [])
  }

  /** The tool call an assistant entry ends with (every entry of Rounds ends
      with a tool use, see RoundsAsked). */
  function CallOf(entry: seq<Block>): ToolCall
  {
    if |entry| > 0 && entry[|entry| - 1].ToolUse? then ToolCall(entry[|entry| - 1].name, entry[|entry| - 1].input)
    else ToolCall("", "")
  }

  /** The content of reply r, or no blocks when there is no reply r or it is
      an error. */
  function Replied(script: seq<ModelReply>, r: int): seq<Block>
  {
    if 0 <= r < |script| && script[r].Reply? then script[r].content else []
  }

  /** Reply r is a single text block. */
  predicate SingleText(script: seq<ModelReply>, r: int)
  {
    |Replied(script, r)| == 1 && Replied(script, r)[0].Text?
  }

  /** The line the Gradio variant adds to the answer before a tool call. */
  function Announcement(announce: bool, name: string): string
  {
    if announce then "\n🔧 Calling tool: " + name + "\n" else ""
  }

  /** What walking block b adds to the answer, reply r being the one in hand
      after it: a text block its text; a tool use the announcement, then the
      text of the reply the call brought when that reply is a single text
      block. */
  function Piece(script: seq<ModelReply>, announce: bool, r: int, b: Block): string
  {
    match b
    case Text(text) => text
    case ToolUse(_, name, _) => Announcement(announce, name) + (if SingleText(script, r) then Replied(script, r)[0].text else "")
  }

  /** Whether walking block b clears the flag, reply r being the one in hand
      after it: a text block does when that reply has exactly one block, a
      tool use does when the reply it brought is a single text block. */
  predicate Drops(script: seq<ModelReply>, r: int, b: Block)
  {
    if b.Text? then |Replied(script, r)| == 1 else SingleText(script, r)
  }

  /** The text a pass over reply s adds while walking the first j blocks of
      `blocks`, that reply. Each tool use brings the next reply, so after j
      blocks the reply in hand is s + |CallsIn(blocks, j)|. */
  function PassText(script: seq<ModelReply>, announce: bool, s: int, blocks: seq<Block>, j: nat): string
    requires j <= |blocks|
  {
    if j == 0 then ""
    else PassText(script, announce, s, blocks, j - 1) + Piece(script, announce, s + |CallsIn(blocks, j)|, blocks[j - 1])
  }

  /** Whether walking the first j blocks in the pass over reply s cleared the
      flag. */
  predicate PassDrops(script: seq<ModelReply>, s: int, blocks: seq<Block>, j: nat)
    requires j <= |blocks|
  {
    && j > 0
    && (PassDrops(script, s, blocks, j - 1) || Drops(script, s + |CallsIn(blocks, j)|, blocks[j - 1]))
  }

  /** The loop goes on after its pass over reply s: the pass kept the flag,
      made a tool call, and the script holds a reply for each of its model
      calls. */
  predicate Continues(script: seq<ModelReply>, s: int)
  {
    var b := Replied(script, s);
    !PassDrops(script, s, b, |b|) && |CallsIn(b, |b|)| > 0 && s + |CallsIn(b, |b|)| < |script|
  }

  /** The assistant entries of the tool calls of the passes from the one over
      reply s on. */
  function RoundsFrom(script: seq<ModelReply>, s: int): seq<seq<Block>>
    decreases |script| - s
  {
    var b := Replied(script, s);
    Entries(b, |b|) + (if Continues(script, s) then RoundsFrom(script, s + |CallsIn(b, |b|)|) else [])
  }

  /** n copies of reply index r. */
  function Copies(n: nat, r: int): (xs: seq<int>)
    ensures |xs| == n && forall i :: 0 <= i < n ==> xs[i] == r
  {
    seq(n, _ => r)
  }

  /** The reply each tool call of the passes from the one over reply s on is
      made in the pass over: the pass over reply s makes one call per tool use
      of that reply. */
  function OwnersFrom(script: seq<ModelReply>, s: int): seq<int>
    decreases |script| - s
  {
    var b := Replied(script, s);
    Copies(|CallsIn(b, |b|)|, s) + (if Continues(script, s) then OwnersFrom(script, s + |CallsIn(b, |b|)|) else [])
  }

  /** The text the passes from the one over reply s on add to the answer. */
  function AnswerFrom(script: seq<ModelReply>, announce: bool, s: int): string
    decreases |script| - s
  {
    var b := Replied(script, s);
    PassText(script, announce, s, b, |b|) + (if Continues(script, s) then AnswerFrom(script, announce, s + |CallsIn(b, |b|)|) else "")
  }

  /** The last of the passes from the one over reply s on neither calls a
      tool nor clears the flag. */
  predicate SpinsFrom(script: seq<ModelReply>, s: int)
    decreases |script| - s
  {
    var b := Replied(script, s);
    if Continues(script, s) then SpinsFrom(script, s + |CallsIn(b, |b|)|) else !PassDrops(script, s, b, |b|) && |CallsIn(b, |b|)| == 0
  }

  /** The assistant entry of every tool call the replies lead the loop to
      make, in order. */
  function Rounds(script: seq<ModelReply>): seq<seq<Block>>
  {
    RoundsFrom(script, 0)
  }

  /** The reply whose pass makes each tool call the replies lead to. */
  function Owners(script: seq<ModelReply>): seq<int>
  {
    OwnersFrom(script, 0)
  }

  /** The answer the replies lead the loop to. */
  function Answer(script: seq<ModelReply>, announce: bool): string
  {
    AnswerFrom(script, announce, 0)
  }

  /** The replies lead the loop to a pass that neither calls a tool nor
      clears the flag, after which it repeats that pass forever. */
  predicate Spinning(script: seq<ModelReply>)
  {
    SpinsFrom(script, 0)
  }

  /** The rounds after a pass the loop goes on from: that pass's entries,
      then those of the passes from the reply its last call brought. */
  lemma {:induction false} RoundsGoOn(script: seq<ModelReply>, s: int)
    requires Continues(script, s)
    ensures var b := Replied(script, s);
            var n := |CallsIn(b, |b|)|;
            && 0 < n && s + n < |script|
            && RoundsFrom(script, s) == Entries(b, |b|) + RoundsFrom(script, s + n)
  {
  }

  /** Every round of the passes from reply s on has its pass. */
  lemma {:induction false} OwnersFromLength(script: seq<ModelReply>, s: int)
    ensures |OwnersFrom(script, s)| == |RoundsFrom(script, s)|
    decreases |script| - s
  {
    var b := Replied(script, s);
    if Continues(script, s) {
      OwnersFromLength(script, s + |CallsIn(b, |b|)|);
    }
  }

  /** The passes after a pass the loop goes on from: that pass's reply once
      per call, then the passes from the reply its last call brought. */
  lemma {:induction false} OwnersGoOn(script: seq<ModelReply>, s: int)
    requires Continues(script, s)
    ensures var b := Replied(script, s);
            var n := |CallsIn(b, |b|)|;
            OwnersFrom(script, s) == Copies(n, s) + OwnersFrom(script, s + n)
  {
  }

  /** The answer after a pass the loop goes on from. */
  lemma {:induction false} AnswerGoesOn(script: seq<ModelReply>, announce: bool, s: int)
    requires Continues(script, s)
    ensures var b := Replied(script, s);
            AnswerFrom(script, announce, s) == PassText(script, announce, s, b, |b|) + AnswerFrom(script, announce, s + |CallsIn(b, |b|)|)
  {
  }

  /** The spin after a pass the loop goes on from. */
  lemma {:induction false} SpinsGoOn(script: seq<ModelReply>, s: int)
    requires Continues(script, s)
    ensures var b := Replied(script, s);
            SpinsFrom(script, s) <==> SpinsFrom(script, s + |CallsIn(b, |b|)|)
  {
  }

  /** The plan after the last pass. */
  lemma {:induction false} PlanEnds(script: seq<ModelReply>, announce: bool, s: int)
    requires !Continues(script, s)
    ensures var b := Replied(script, s);
            && RoundsFrom(script, s) == Entries(b, |b|)
            && AnswerFrom(script, announce, s) == PassText(script, announce, s, b, |b|)
            && (SpinsFrom(script, s) <==> !PassDrops(script, s, b, |b|) && |CallsIn(b, |b|)| == 0)
  {
  }

  /** Walking further only adds entries. */
  lemma {:induction false} EntriesPrefix(blocks: seq<Block>, i: nat, j: nat)
    requires i <= j <= |blocks|
    ensures Entries(blocks, i) <= Entries(blocks, j)
    decreases j
  {
    if i < j {
      EntriesPrefix(blocks, i, j - 1);
    }
  }

  /** The entry of the tool use at block j is the prefix ending in it, and
      it comes after the entries of the tool uses before it. */
  lemma {:induction false} EntryAt(blocks: seq<Block>, j: nat)
    requires j < |blocks| && blocks[j].ToolUse?
    ensures |CallsIn(blocks, j)| < |Entries(blocks, |blocks|)|
    ensures Entries(blocks, |blocks|)[|CallsIn(blocks, j)|] == blocks[..j + 1]
  {
    assert Entries(blocks, j + 1) == Entries(blocks, j) + [blocks[..j + 1]];
    EntriesPrefix(blocks, j + 1, |blocks|);
  }

  /** Each entry of Entries(blocks, j) is a prefix of blocks ending in a tool
      use among the first j blocks. */
  lemma {:induction false} EntriesAsked(blocks: seq<Block>, j: nat, m: nat)
    requires j <= |blocks| && m < |Entries(blocks, j)|
    ensures exists i :: 0 <= i < j && blocks[i].ToolUse? && Entries(blocks, j)[m] == blocks[..i + 1]
    decreases j
  {
    if m < |Entries(blocks, j - 1)| {
      EntriesAsked(blocks, j - 1, m);
      var i :| 0 <= i < j - 1 && blocks[i].ToolUse? && Entries(blocks, j - 1)[m] == blocks[..i + 1];
      assert Entries(blocks, j)[m] == Entries(blocks, j - 1)[m];
    } else {
      assert Entries(blocks, j)[m] == blocks[..(j - 1) + 1];
    }
  }

  /** Entry m of the pass over reply s is a prefix of that reply ending in
      one of its tool uses. */
  lemma {:induction false} EntryOfReply(script: seq<ModelReply>, s: int, m: nat) returns (j: nat)
    requires 0 <= s && var b := Replied(script, s); m < |Entries(b, |b|)|
    ensures s < |script| && script[s].Reply? && j < |script[s].content| && script[s].content[j].ToolUse?
    ensures var b := Replied(script, s); Entries(b, |b|)[m] == script[s].content[..j + 1]
  {
    var b := Replied(script, s);
    EntriesAsked(b, |b|, m);
    j :| j < |b| && b[j].ToolUse? && Entries(b, |b|)[m] == b[..j + 1];
  }

  /** Every planned tool call comes from a tool use of an earlier reply: the
      m-th round of the passes from reply s on is the prefix of a reply r,
      s <= r <= s + m, that ends in a tool use of r, and r is the reply of
      the pass that makes it. */
  lemma {:induction false} RoundsFromAsked(script: seq<ModelReply>, s: int, m: nat) returns (r: int, j: nat)
    requires 0 <= s && m < |RoundsFrom(script, s)|
    ensures && s <= r <= s + m && r < |script| && script[r].Reply?
            && j < |script[r].content| && script[r].content[j].ToolUse?
            && RoundsFrom(script, s)[m] == script[r].content[..j + 1]
    ensures m < |OwnersFrom(script, s)| && OwnersFrom(script, s)[m] == r
    decreases |script| - s
  {
    var b := Replied(script, s);
    var n := |CallsIn(b, |b|)|;
    if m < |Entries(b, |b|)| {
      r := s;
      j := EntryOfReply(script, s, m);
      PassHead(script, s, m);
    } else {
      assert Continues(script, s);
      RoundsGoOn(script, s);
      r, j := RoundsFromAsked(script, s + n, m - n);
      PassTail(script, s, m);
    }
  }

  /** The first rounds of the passes from reply s on are the entries of the
      pass over reply s, and that pass makes their calls. */
  lemma {:induction false} PassHead(script: seq<ModelReply>, s: int, m: nat)
    requires var b := Replied(script, s); m < |Entries(b, |b|)|
    ensures var b := Replied(script, s);
            && m < |RoundsFrom(script, s)| && RoundsFrom(script, s)[m] == Entries(b, |b|)[m]
            && m < |OwnersFrom(script, s)| && OwnersFrom(script, s)[m] == s
  {
    var b := Replied(script, s);
    var n := |CallsIn(b, |b|)|;
    var rounds := if Continues(script, s) then RoundsFrom(script, s + n) else [];
    var owners := if Continues(script, s) then OwnersFrom(script, s + n) else [];
    assert RoundsFrom(script, s) == Entries(b, |b|) + rounds;
    assert (Entries(b, |b|) + rounds)[m] == Entries(b, |b|)[m];
    assert OwnersFrom(script, s) == Copies(n, s) + owners;
    assert (Copies(n, s) + owners)[m] == Copies(n, s)[m];
  }

  /** The rounds after those of the pass over reply s are, when the loop goes
      on, those of the passes from the reply its last call brought. */
  lemma {:induction false} PassTail(script: seq<ModelReply>, s: int, m: nat)
    requires var b := Replied(script, s); |Entries(b, |b|)| <= m < |RoundsFrom(script, s)|
    ensures var b := Replied(script, s);
            var n := |CallsIn(b, |b|)|;
            && Continues(script, s) && 0 < n && m - n < |RoundsFrom(script, s + n)|
            && RoundsFrom(script, s)[m] == RoundsFrom(script, s + n)[m - n]
            && (m - n < |OwnersFrom(script, s + n)| ==>
                  m < |OwnersFrom(script, s)| && OwnersFrom(script, s)[m] == OwnersFrom(script, s + n)[m - n])
  {
    var b := Replied(script, s);
    assert Continues(script, s);
    RoundsGoOn(script, s);
    OwnersGoOn(script, s);
  }

  /** Round k, the assistant entry of the k-th tool call, is the prefix of
      the reply r <= k whose pass makes it, ending in one of its tool uses. */
  lemma {:induction false} RoundsAsked(script: seq<ModelReply>, k: nat)
    requires k < |Rounds(script)|
    ensures && k < |Owners(script)| && 0 <= Owners(script)[k] <= k
            && var r := Owners(script)[k];
               && r < |script| && script[r].Reply?
               && exists j :: && 0 <= j < |script[r].content| && script[r].content[j].ToolUse?
                              && Rounds(script)[k] == script[r].content[..j + 1]
  {
    var r, j := RoundsFromAsked(script, 0, k);
  }

  /** A pass with no tool call over a reply that has not exactly one block
      keeps the flag. */
  lemma {:induction false} QuietPass(script: seq<ModelReply>, s: int, blocks: seq<Block>, j: nat)
    requires j <= |blocks| && |CallsIn(blocks, j)| == 0 && |Replied(script, s)| != 1
    ensures !PassDrops(script, s, blocks, j)
  {
    if j > 0 {
      QuietPass(script, s, blocks, j - 1);
    }
  }

  /** A pass over a reply of one text block clears the flag at that block. */
  lemma {:induction false} LoneTextDrops(script: seq<ModelReply>, s: int)
    ensures var b := Replied(script, s);
            |b| == 1 && b[0].Text? ==> PassDrops(script, s, b, |b|)
  {
    var b := Replied(script, s);
    if |b| == 1 && b[0].Text? {
      assert |CallsIn(b, 1)| == 0;
    }
  }

  // ---------------------------------------------------------------------
  // The calls of a turn

  /** In history ms, entries 2k+1 and 2k+2 are the k-th tool round trip: an
      assistant message whose last block is the tool use that made `call`,
      then a user message holding exactly one tool result with that block's
      id and the content the tool returned. */
  predicate Paired(ms: History, k: nat, call: ToolCall, reply: ToolReply)
  {
    && 2 * k + 2 < |ms|
    && ms[2 * k + 1].Assistant?
    && |ms[2 * k + 1].content| > 0
    && var b := ms[2 * k + 1].content[|ms[2 * k + 1].content| - 1];
       && b.ToolUse? && b.name == call.name && b.input == call.input
       && reply.ToolOk?
       && ms[2 * k + 2] == UserResults([ToolResult(b.id, reply.content)])
  }

  /** The id of the tool use an assistant entry ends with. */
  function IdOf(entry: seq<Block>): string
  {
    if |entry| > 0 && entry[|entry| - 1].ToolUse? then entry[|entry| - 1].id else ""
  }

  /** What a tool call returned, as the content of its tool result. */
  function Output(reply: ToolReply): Json
  {
    match reply
    case ToolOk(content) => content
    case ToolRaised(_) => ""
  }

  /** The user message with the result of the tool call an entry ends with. */
  function ResultOf(c: Setup, entry: seq<Block>): Message
  {
    var call := CallOf(entry);
    UserResults([ToolResult(IdOf(entry), Output(c.server(call.name, call.input)))])
  }

  /** Entry i of the history while the list shared by the pass over reply
      `own` holds `items`: the query, then per tool call m an assistant entry
      and the call's result. A call of that pass has the shared list as its
      entry; a call of an earlier pass has that pass's list, which by then
      holds the pass's whole reply. */
  function HistoryEntry(c: Setup, rounds: seq<seq<Block>>, owners: seq<int>, own: int, items: seq<Block>, i: nat): Message
    requires 0 < i ==> (i - 1) / 2 < |rounds| && (i - 1) / 2 < |owners|
  {
    if i == 0 then UserText(c.query)
    else if i % 2 == 1 then
      var m := (i - 1) / 2;
      Assistant(if owners[m] == own then items else Replied(c.script, owners[m]))
    else ResultOf(c, rounds[(i - 1) / 2])
  }

  /** History ms holds exactly the entries of n tool calls, with the list of
      the pass over reply `own` holding `items`. The entries are matched
      through HistoryEntry only, so that a proof about the history meets
      them only where it names them. */
  predicate Shaped(c: Setup, rounds: seq<seq<Block>>, owners: seq<int>, ms: History, n: nat, own: int, items: seq<Block>)
  {
    && |ms| == 2 * n + 1 && n <= |rounds| && n <= |owners|
    && forall i {:trigger HistoryEntry(c, rounds, owners, own, items, i)} ::
         0 <= i < |ms| ==> ms[i] == HistoryEntry(c, rounds, owners, own, items, i)
  }

  /** The tool calls k0 .. k0 + n - 1 are those of the pass over reply `own`,
      and every call before them belongs to an earlier pass. */
  predicate OwnedBy(owners: seq<int>, k0: nat, n: nat, own: int)
  {
    && k0 + n <= |owners|
    && (forall m :: 0 <= m < k0 ==> owners[m] < own)
    && (forall m :: k0 <= m < k0 + n ==> owners[m] == own)
  }

  /** The shared list of the pass whose calls start at k0 grows to `more`. */
  lemma {:induction false} ShapedRefresh(c: Setup, rounds: seq<seq<Block>>, owners: seq<int>, ms: History, n: nat, own: int,
                                         items: seq<Block>, k0: nat, total: nat, more: seq<Block>)
    requires Shaped(c, rounds, owners, ms, n, own, items)
    requires OwnedBy(owners, k0, total, own) && k0 <= n <= k0 + total
    ensures Shaped(c, rounds, owners, Refresh(ms, 2 * k0 + 1, more), n, own, more)
  {
    var r := Refresh(ms, 2 * k0 + 1, more);
    forall i | 0 <= i < |r| ensures r[i] == HistoryEntry(c, rounds, owners, own, more, i) {
      assert ms[i] == HistoryEntry(c, rounds, owners, own, items, i);
      if 0 < i && i % 2 == 1 {
        var m := (i - 1) / 2;
        assert i >= 2 * k0 + 1 <==> m >= k0;
      }
    }
  }

  /** A tool call of the pass over reply `own` adds its entry, the shared
      list, and its result. */
  lemma {:induction false} ShapedAppend(c: Setup, rounds: seq<seq<Block>>, owners: seq<int>, ms: History, n: nat, own: int,
                                        items: seq<Block>, id: string, name: string, input: Json)
    requires Shaped(c, rounds, owners, ms, n, own, items)
    requires n < |rounds| && n < |owners| && owners[n] == own && rounds[n] == items
    requires |items| > 0 && items[|items| - 1] == ToolUse(id, name, input)
    ensures Shaped(c, rounds, owners, ms + [Assistant(items), UserResults([ToolResult(id, Output(c.server(name, input)))])],
                   n + 1, own, items)
  {
    var r := ms + [Assistant(items), UserResults([ToolResult(id, Output(c.server(name, input)))])];
    forall i | 0 <= i < |r| ensures r[i] == HistoryEntry(c, rounds, owners, own, items, i) {
      if i < |ms| {
        assert r[i] == ms[i];
      }
    }
  }

  /** When the pass over reply `own` is over, its list holds that whole reply,
      and a pass over a later reply starts with a new, empty list. */
  lemma {:induction false} ShapedNewPass(c: Setup, rounds: seq<seq<Block>>, owners: seq<int>, ms: History, n: nat, own: int,
                                         own': int)
    requires Shaped(c, rounds, owners, ms, n, own, Replied(c.script, own))
    requires forall m :: 0 <= m < n ==> owners[m] <= own
    requires own < own'
    ensures Shaped(c, rounds, owners, ms, n, own', [])
  {
    forall i | 0 <= i < |ms| ensures ms[i] == HistoryEntry(c, rounds, owners, own', [], i) {
      assert ms[i] == HistoryEntry(c, rounds, owners, own, Replied(c.script, own), i);
    }
  }

  /** The model calls and tool calls of a turn so far: their exchanges, and
      the history of the model call after tool call k is exactly Shaped: the
      assistant entries of the calls of k's pass all hold round k, the
      shared list as it stands then, and those of earlier passes hold the
      whole reply of their pass. */
  predicate Conversation(c: Setup, rounds: seq<seq<Block>>, owners: seq<int>, requests: seq<Request>, calls: seq<ToolCall>)
  {
    Exchanges(c, rounds, requests, calls) && Histories(c, rounds, owners, requests)
  }

  /** The first model call carries only the query; every call carries the
      same model and tools, and call k a history of 2k + 1 messages; tool
      call k is the one round k of the replies asks for, and the model call
      after it carries round k as its assistant entry and the tool's result;
      each history extends the one before. */
  predicate Exchanges(c: Setup, rounds: seq<seq<Block>>, requests: seq<Request>, calls: seq<ToolCall>)
  {
    && 1 <= |requests| <= |c.script|
    && |calls| <= |requests| <= |calls| + 1
    && |calls| <= |rounds|
    && requests[0].messages == [UserText(c.query)]
    && (forall k :: 0 <= k < |requests| ==>
          requests[k].model == c.model && requests[k].tools == c.tools && |requests[k].messages| == 2 * k + 1)
    && (forall k :: 0 <= k < |calls| ==> calls[k] == CallOf(rounds[k]))
    && (forall k :: 0 <= k < |requests| - 1 ==>
          && c.script[k].Reply?
          && requests[k + 1].messages[2 * k + 1] == Assistant(rounds[k])
          && Paired(requests[k + 1].messages, k, calls[k], c.server(calls[k].name, calls[k].input)))
    && (forall k :: 0 <= k < |requests| - 1 ==> Extends(requests[k].messages, requests[k + 1].messages))
  }

  /** The history of the model call after tool call k, for every k, is
      exactly Shaped with the list of k's pass holding round k. */
  predicate Histories(c: Setup, rounds: seq<seq<Block>>, owners: seq<int>, requests: seq<Request>)
  {
    forall k :: 0 <= k < |requests| - 1 ==>
      k < |rounds| && k < |owners| && Shaped(c, rounds, owners, requests[k + 1].messages, k + 1, owners[k], rounds[k])
  }

  /** One more model call, after tool call |requests| - 1, keeps the
      histories exact. */
  lemma {:induction false} HistoriesNext(c: Setup, rounds: seq<seq<Block>>, owners: seq<int>, requests: seq<Request>, r: Request)
    requires Histories(c, rounds, owners, requests) && 0 < |requests|
    requires |requests| - 1 < |rounds| && |requests| - 1 < |owners|
    requires Shaped(c, rounds, owners, r.messages, |requests|, owners[|requests| - 1], rounds[|requests| - 1])
    ensures Histories(c, rounds, owners, requests + [r])
  {
    var rs := requests + [r];
    forall k | 0 <= k < |rs| - 1
      ensures k < |rounds| && k < |owners| && Shaped(c, rounds, owners, rs[k + 1].messages, k + 1, owners[k], rounds[k])
    {
      if k < |requests| - 1 {
        assert rs[k + 1] == requests[k + 1];
      }
    }
  }

  /** The three ways a pass over a response stops the turn early. */
  predicate Stopped(c: Setup, requests: seq<Request>, calls: seq<ToolCall>, e: LoopEnd)
  {
    || (&& e == OutOfScript && 0 < |calls| == |requests| == |c.script|
        && c.server(calls[|calls| - 1].name, calls[|calls| - 1].input).ToolOk?)
    || (&& 0 < |calls| == |requests|
        && c.server(calls[|calls| - 1].name, calls[|calls| - 1].input).ToolRaised?
        && e == Raised(c.server(calls[|calls| - 1].name, calls[|calls| - 1].input).reason))
    || (&& 0 < |requests| == |calls| + 1 <= |c.script|
        && e.Raised? && c.script[|requests| - 1] == ApiError(e.reason))
  }

  /** The first reply is a single text block. */
  predicate SingleTextFirst(script: seq<ModelReply>)
  {
    |script| > 0 && script[0].Reply? && |script[0].content| == 1 && script[0].content[0].Text?
  }

  /** The first reply has no tool use and not exactly one block. */
  predicate SpinningFirst(script: seq<ModelReply>)
  {
    |script| > 0 && script[0].Reply? && NoToolUse(script[0].content) && |script[0].content| != 1
  }

  /** What a whole turn did: with an empty script it ends at once asking for
      a reply; otherwise its calls form a conversation, and an exception or
      the end of the script stops it as Stopped says. It finishes or spins
      only after a model reply that answered every tool call, having made
      every call the replies lead to; it finishes with the answer they lead
      to exactly when they do not lead to a spin, and it spins on a reply
      with no tool use and not exactly one block. */
  predicate Ended(c: Setup, requests: seq<Request>, calls: seq<ToolCall>, end: LoopEnd)
  {
    && (|c.script| == 0 ==> end == OutOfScript && requests == [] && calls == [])
    && (|c.script| > 0 ==> Conversation(c, Rounds(c.script), Owners(c.script), requests, calls))
    && (|c.script| > 0 && (end.Raised? || end.OutOfScript?) ==> Stopped(c, requests, calls, end))
    && (end.Finished? || end.Spins? ==>
          && 0 < |requests| == |calls| + 1 <= |c.script| && c.script[|requests| - 1].Reply?
          && |calls| == |Rounds(c.script)|)
    && (end.Finished? ==> end.answer == Answer(c.script, c.announce) && !Spinning(c.script))
    && (end.Spins? ==>
          && Spinning(c.script)
          && NoToolUse(c.script[|requests| - 1].content) && |c.script[|requests| - 1].content| != 1)
  }

  /** A first reply without tool use is the whole plan: no rounds, and
      the answer and the spin of its one pass. */
  lemma {:induction false} FirstReplyPlan(script: seq<ModelReply>, announce: bool)
    requires SingleTextFirst(script) || SpinningFirst(script)
    ensures |Rounds(script)| == 0
    ensures SingleTextFirst(script) ==> Answer(script, announce) == script[0].content[0].text && !Spinning(script)
    ensures SpinningFirst(script) ==> Spinning(script)
  {
    var b := script[0].content;
    CallsInNone(b, |b|);
    assert !Continues(script, 0);
    PlanEnds(script, announce, 0);
    if SingleTextFirst(script) {
      assert PassDrops(script, 0, b, |b|);
      assert PassText(script, announce, 0, b, |b|) == b[0].text;
    } else {
      QuietPass(script, 0, b, |b|);
    }
  }

  /** A first reply without tool use decides the turn alone: one text block
      is the whole answer, any other number of text blocks makes the loop
      spin; either way after one model call and no tool call. */
  lemma {:induction false} FirstReplyDecides(c: Setup, requests: seq<Request>, calls: seq<ToolCall>, end: LoopEnd)
    requires Ended(c, requests, calls, end)
    ensures SingleTextFirst(c.script) ==> end == Finished(c.script[0].content[0].text) && |requests| == 1 && calls == []
    ensures SpinningFirst(c.script) ==> end == Spins && |requests| == 1 && calls == []
  {
    if SingleTextFirst(c.script) || SpinningFirst(c.script) {
      FirstReplyPlan(c.script, c.announce);
    }
  }

  /** The replies of a turn with one tool round: the first asks for tool `a`
      with input `x`, the second is the single text `t`. They lead to that
      one round and to the announcement (if any) followed by `t`. */
  lemma {:induction false} OneToolRoundPlan(script: seq<ModelReply>, announce: bool)
    requires script == [Reply([ToolUse("i", "a", "x")]), Reply([Text("t")])]
    ensures Rounds(script) == [[ToolUse("i", "a", "x")]]
    ensures Answer(script, announce) == Announcement(announce, "a") + "t"
  {
    var b := [ToolUse("i", "a", "x")];
    assert b[..1] == b;
    assert CallsIn(b, 1) == [ToolCall("a", "x")];
    assert Entries(b, 1) == [b];
    assert SingleText(script, 1);
    assert PassDrops(script, 0, b, 1);
    assert PassText(script, announce, 0, b, 1) == Announcement(announce, "a") + "t";
  }

  /** A tool use in a reply that arrives in the middle of a pass is not
      walked: the first reply asks for tool `a` and then holds the text `t`;
      the tool round brings a reply with a single block, a tool use of `b`.
      The text block then sees a one-block response in hand and ends the
      loop, so `b` is never called. */
  lemma {:induction false} MidPassReplyPlan(script: seq<ModelReply>, announce: bool)
    requires script == [Reply([ToolUse("i", "a", "x"), Text("t")]), Reply([ToolUse("j", "b", "y")])]
    ensures Rounds(script) == [[ToolUse("i", "a", "x")]]
    ensures Answer(script, announce) == Announcement(announce, "a") + "t"
    ensures !Spinning(script)
  {
    var b := [ToolUse("i", "a", "x"), Text("t")];
    assert b[..1] == [ToolUse("i", "a", "x")];
    assert CallsIn(b, 1) == [ToolCall("a", "x")];
    assert CallsIn(b, 2) == [ToolCall("a", "x")];
    assert Entries(b, 2) == [b[..1]];
    assert !SingleText(script, 1);
    assert PassDrops(script, 0, b, 2);
    assert Piece(script, announce, 1, b[0]) == Announcement(announce, "a");
    assert PassText(script, announce, 0, b, 1) == Announcement(announce, "a");
    assert PassText(script, announce, 0, b, 2) == Announcement(announce, "a") + "t";
  }

  /** A reply with two tool uses, `a` and then `b`: the round of `a` brings
      a reply of two text blocks, which neither ends the loop nor is walked,
      and the round of `b` brings the single text `t`. Both rounds belong to
      the pass over the first reply, and the announcements come before `t`. */
  lemma {:induction false} SharedListPlan(script: seq<ModelReply>, announce: bool)
    requires script == [Reply([ToolUse("i", "a", "x"), ToolUse("j", "b", "y")]), Reply([Text("p"), Text("q")]), Reply([Text("t")])]
    ensures Rounds(script) == [[ToolUse("i", "a", "x")], [ToolUse("i", "a", "x"), ToolUse("j", "b", "y")]]
    ensures Owners(script) == [0, 0]
    ensures Answer(script, announce) == Announcement(announce, "a") + Announcement(announce, "b") + "t"
    ensures !Spinning(script)
  {
    var b := [ToolUse("i", "a", "x"), ToolUse("j", "b", "y")];
    assert b[..1] == [ToolUse("i", "a", "x")] && b[..2] == b;
    assert CallsIn(b, 1) == [ToolCall("a", "x")];
    assert CallsIn(b, 2) == [ToolCall("a", "x"), ToolCall("b", "y")];
    assert Entries(b, 2) == [b[..1], b[..2]];
    assert !SingleText(script, 1) && SingleText(script, 2);
    assert PassDrops(script, 0, b, 2);
    assert Copies(2, 0) == [0, 0];
    assert PassText(script, announce, 0, b, 1) == Announcement(announce, "a");
    assert PassText(script, announce, 0, b, 2) == Announcement(announce, "a") + (Announcement(announce, "b") + "t");
  }

  /** The turn over the replies of SharedListPlan, when it finishes: the
      third model call carries the one list of the pass twice, holding both
      tool uses, each entry followed by the result of its own call only. */
  lemma {:induction false} SharedList(c: Setup, requests: seq<Request>, calls: seq<ToolCall>, end: LoopEnd)
    requires c.script == [Reply([ToolUse("i", "a", "x"), ToolUse("j", "b", "y")]), Reply([Text("p"), Text("q")]), Reply([Text("t")])]
    requires Ended(c, requests, calls, end) && end.Finished?
    ensures calls == [ToolCall("a", "x"), ToolCall("b", "y")] && |requests| == 3
    ensures c.server("a", "x").ToolOk? && c.server("b", "y").ToolOk?
    ensures requests[2].messages ==
              [UserText(c.query),
               Assistant([ToolUse("i", "a", "x"), ToolUse("j", "b", "y")]), UserResults([ToolResult("i", c.server("a", "x").content)]),
               Assistant([ToolUse("i", "a", "x"), ToolUse("j", "b", "y")]), UserResults([ToolResult("j", c.server("b", "y").content)])]
    ensures end.answer == Announcement(c.announce, "a") + Announcement(c.announce, "b") + "t"
  {
    SharedListPlan(c.script, c.announce);
    var rounds, owners := Rounds(c.script), Owners(c.script);
    assert calls[0] == CallOf(rounds[0]) && calls[1] == CallOf(rounds[1]);
    assert Paired(requests[1].messages, 0, calls[0], c.server(calls[0].name, calls[0].input));
    assert Paired(requests[2].messages, 1, calls[1], c.server(calls[1].name, calls[1].input));
    SharedHistory(c, rounds, owners, requests[2].messages);
  }

  /** The history after the second tool call of SharedList, entry by entry. */
  lemma {:induction false} SharedHistory(c: Setup, rounds: seq<seq<Block>>, owners: seq<int>, ms: History)
    requires rounds == [[ToolUse("i", "a", "x")], [ToolUse("i", "a", "x"), ToolUse("j", "b", "y")]] && owners == [0, 0]
    requires Shaped(c, rounds, owners, ms, 2, 0, rounds[1])
    ensures ms == [UserText(c.query), Assistant(rounds[1]), UserResults([ToolResult("i", Output(c.server("a", "x")))]),
                   Assistant(rounds[1]), UserResults([ToolResult("j", Output(c.server("b", "y")))])]
  {
    assert ms[0] == HistoryEntry(c, rounds, owners, 0, rounds[1], 0);
    assert ms[1] == HistoryEntry(c, rounds, owners, 0, rounds[1], 1);
    assert ms[2] == HistoryEntry(c, rounds, owners, 0, rounds[1], 2);
    assert ms[3] == HistoryEntry(c, rounds, owners, 0, rounds[1], 3);
    assert ms[4] == HistoryEntry(c, rounds, owners, 0, rounds[1], 4);
  }

  /** A turn with one tool round, as OneToolRoundPlan: whatever the tool
      returns, a finished turn made exactly that tool call, its second model
      call carried the tool use and the result, and the answer is the
      announcement (if any) followed by `t`. */
  lemma {:induction false} OneToolRound(c: Setup, requests: seq<Request>, calls: seq<ToolCall>, end: LoopEnd)
    requires c.script == [Reply([ToolUse("i", "a", "x")]), Reply([Text("t")])]
    requires Ended(c, requests, calls, end) && end.Finished?
    ensures calls == [ToolCall("a", "x")] && |requests| == 2
    ensures requests[1].messages ==
              [UserText(c.query), Assistant([ToolUse("i", "a", "x")]), UserResults([ToolResult("i", c.server("a", "x").content)])]
    ensures end.answer == Announcement(c.announce, "a") + "t"
  {
    OneToolRoundPlan(c.script, c.announce);
    FirstRound(c, Rounds(c.script), Owners(c.script), requests, calls);
  }

  /** The second model call of a conversation carries the query, the first
      round and the result of the first tool call. */
  lemma {:induction false} FirstRound(c: Setup, rounds: seq<seq<Block>>, owners: seq<int>, requests: seq<Request>, calls: seq<ToolCall>)
    requires Conversation(c, rounds, owners, requests, calls) && |requests| == 2
    ensures var ms := requests[1].messages;
            && |ms| == 3 && ms[0] == UserText(c.query) && ms[1] == Assistant(rounds[0])
            && Paired(ms, 0, calls[0], c.server(calls[0].name, calls[0].input))
  {
    assert Grows(requests[0].messages[0], requests[1].messages[0]);
  }

  lemma {:induction false} ConversationNext(c: Setup, rounds: seq<seq<Block>>, requests: seq<Request>, calls: seq<ToolCall>, call: ToolCall, ms: History)
    requires Exchanges(c, rounds, requests, calls)
    requires |requests| == |calls| + 1 && |requests| < |c.script|
    requires c.script[|requests| - 1].Reply?
    requires Extends(requests[|requests| - 1].messages, ms)
    requires |ms| == 2 * |requests| + 1
    requires |calls| < |rounds| && call == CallOf(rounds[|calls|])
    requires ms[2 * |calls| + 1] == Assistant(rounds[|calls|])
    requires Paired(ms, |calls|, call, c.server(call.name, call.input))
    ensures Exchanges(c, rounds, requests + [Request(c.model, c.tools, ms)], calls + [call])
  {
    var rs := requests + [Request(c.model, c.tools, ms)];
    var cs := calls + [call];
    forall k | 0 <= k < |cs| ensures cs[k] == CallOf(rounds[k]) {
      if k < |calls| {
        assert cs[k] == calls[k];
      }
    }
    forall k | 0 <= k < |rs| - 1
      ensures && c.script[k].Reply?
              && rs[k + 1].messages[2 * k + 1] == Assistant(rounds[k])
              && Paired(rs[k + 1].messages, k, cs[k], c.server(cs[k].name, cs[k].input))
    {
      if k < |requests| - 1 {
        assert rs[k + 1] == requests[k + 1] && cs[k] == calls[k];
      }
    }
    forall k | 0 <= k < |rs| - 1 ensures Extends(rs[k].messages, rs[k + 1].messages) {
      if k < |requests| - 1 {
        assert rs[k + 1] == requests[k + 1];
      }
    }
  }

  /** A tool call made after the last model call keeps the conversation. */
  lemma {:induction false} ConversationMoreCalls(c: Setup, rounds: seq<seq<Block>>, requests: seq<Request>, calls: seq<ToolCall>, call: ToolCall)
    requires Exchanges(c, rounds, requests, calls)
    requires |requests| == |calls| + 1
    requires |calls| < |rounds| && call == CallOf(rounds[|calls|])
    ensures Exchanges(c, rounds, requests, calls + [call])
  {
    var cs := calls + [call];
    forall k | 0 <= k < |cs| ensures cs[k] == CallOf(rounds[k]) {
      if k < |calls| {
        assert cs[k] == calls[k];
      }
    }
    forall k | 0 <= k < |requests| - 1
      ensures && c.script[k].Reply?
              && requests[k + 1].messages[2 * k + 1] == Assistant(rounds[k])
              && Paired(requests[k + 1].messages, k, cs[k], c.server(cs[k].name, cs[k].input))
    {
      assert cs[k] == calls[k];
    }
  }

  // ---------------------------------------------------------------------
  // The loop

  /** What the replies lead the loop to (Rounds, Answer, Spinning), carried
      through the loop's proof as a value. */
  datatype Plan = Plan(rounds: seq<seq<Block>>, owners: seq<int>, answer: string, spinning: bool)

  /** The variables of the source's loop: the history, the answer so far, the
      response in hand and the `process_query` flag, with the model and tool
      calls made so far. */
  datatype Turn = Turn(messages: History, requests: seq<Request>, calls: seq<ToolCall>,
                       response: seq<Block>, full: string, process: bool)

  /** Between two blocks: the calls so far form a conversation, every tool
      call has been answered by a model call, the history extends what the
      last model call carried, and the response in hand is that call's. */
  predicate Live(c: Setup, rounds: seq<seq<Block>>, owners: seq<int>, t: Turn)
  {
    && Conversation(c, rounds, owners, t.requests, t.calls)
    && |t.requests| == |t.calls| + 1 && |t.messages| == 2 * |t.calls| + 1
    && Extends(t.requests[|t.requests| - 1].messages, t.messages)
    && c.script[|t.requests| - 1] == Reply(t.response)
  }

  /** At the start of a pass over the response in hand, reply s =
      |t.requests| - 1: what is left of the rounds, the answer and the spin
      the replies lead to is what the passes from reply s on give. */
  predicate OnPlan(c: Setup, p: Plan, t: Turn)
  {
    && 1 <= |t.requests| && |t.calls| <= |p.rounds|
    && p.rounds[|t.calls|..] == RoundsFrom(c.script, |t.requests| - 1)
    && p.answer == t.full + AnswerFrom(c.script, c.announce, |t.requests| - 1)
    && (p.spinning <==> SpinsFrom(c.script, |t.requests| - 1))
    && |t.calls| <= |p.owners| && p.owners[|t.calls|..] == OwnersFrom(c.script, |t.requests| - 1)
    && (forall m :: 0 <= m < |t.calls| ==> p.owners[m] < |t.requests| - 1)
    && Shaped(c, p.rounds, p.owners, t.messages, |t.calls|, |t.requests| - 1, [])
  }

  /** After the first j blocks of `blocks` in a pass that started in state t0
      over reply |t0.requests| - 1: one tool call and one model call were made
      per tool use, the answer grew by the pass's text, the flag is cleared as
      the pass says, and while no tool use was met the history, the model
      calls and the response stayed as they were. */
  predicate Walked(c: Setup, t0: Turn, blocks: seq<Block>, j: nat, t: Turn)
  {
    && j <= |blocks|
    && |t.requests| == |t0.requests| + |CallsIn(blocks, j)|
    && t.calls == t0.calls + CallsIn(blocks, j)
    && t.full == t0.full + PassText(c.script, c.announce, |t0.requests| - 1, blocks, j)
    && (t.process <==> t0.process && !PassDrops(c.script, |t0.requests| - 1, blocks, j))
    && (|CallsIn(blocks, j)| == 0 ==> t.requests == t0.requests && t.messages == t0.messages && t.response == blocks)
  }

  /** The state between blocks j - 1 and j of a pass over `blocks`. Where a
      member only passes this fact along, it is written
      `var walking := Walking(...); walking`, so that the verifier takes it
      whole instead of proving each of its parts again. */
  predicate Walking(c: Setup, rounds: seq<seq<Block>>, owners: seq<int>, t0: Turn, start: nat, blocks: seq<Block>, j: nat, items: seq<Block>, t: Turn)
  {
    && j <= |blocks| && items == blocks[..j] && Aliased(t.messages, start, items)
    && Live(c, rounds, owners, t) && Walked(c, t0, blocks, j, t)
    && Shaped(c, rounds, owners, t.messages, |t.calls|, |t0.requests| - 1, items)
  }

  /** The tool-use branch, entered with the block already added to the
      shared list `items`, which is round |calls0| of the replies: put the
      list into the history, call the tool, add its result, and ask the
      model again. `done` tells whether the new response is a single text
      block, whose text is then added to the answer. */
  method ToolStep(c: Setup, ghost rounds: seq<seq<Block>>, ghost owners: seq<int>, items: seq<Block>, messages0: History, requests0: seq<Request>,
                  calls0: seq<ToolCall>, full0: string, id: string, name: string, input: Json)
    returns (stop: Outcomes.Option<LoopEnd>, messages: History, requests: seq<Request>,
             calls: seq<ToolCall>, full: string, response: seq<Block>, done: bool)
    requires Conversation(c, rounds, owners, requests0, calls0)
    requires |requests0| == |calls0| + 1 && |messages0| == 2 * |calls0| + 1
    requires c.script[|requests0| - 1].Reply?
    requires Extends(requests0[|requests0| - 1].messages, messages0)
    requires |items| > 0 && items[|items| - 1] == ToolUse(id, name, input)
    requires |calls0| < |rounds| && rounds[|calls0|] == items
    requires |calls0| < |owners| && Shaped(c, rounds, owners, messages0, |calls0|, owners[|calls0|], items)
    ensures calls == calls0 + [ToolCall(name, input)]
    ensures Conversation(c, rounds, owners, requests, calls)
    ensures stop.Some? ==> Stopped(c, requests, calls, stop.value)
    ensures stop.None? ==>
              && c.server(name, input).ToolOk?
              && messages == messages0 + [Assistant(items), UserResults([ToolResult(id, c.server(name, input).content)])]
              && requests == requests0 + [Request(c.model, c.tools, messages)]
              && c.script[|requests| - 1] == Reply(response)
              && (done <==> |response| == 1 && response[0].Text?)
              && Shaped(c, rounds, owners, messages, |calls|, owners[|calls0|], items)
    ensures stop.None? && done ==> full == full0 + Announcement(c.announce, name) + response[0].text
    ensures stop.None? && !done ==> full == full0 + Announcement(c.announce, name)
  {
    stop, requests, done, response := Outcomes.None, requests0, false, [];
    messages := messages0 + [Assistant(items)];
    full := full0 + Announcement(c.announce, name);
    ConversationMoreCalls(c, rounds, requests0, calls0, ToolCall(name, input));
    calls := calls0 + [ToolCall(name, input)];
    var result := c.server(name, input);
    if result.ToolRaised? {
      stop := Outcomes.Some(Raised(result.reason));
      return;
    }
    messages := messages + [UserResults([ToolResult(id, result.content)])];
    if |requests| == |c.script| {
      stop := Outcomes.Some(OutOfScript);
      return;
    }
    ExtendsAppend(messages0, [Assistant(items), UserResults([ToolResult(id, result.content)])]);
    assert messages == messages0 + [Assistant(items), UserResults([ToolResult(id, result.content)])];
    ExtendsTransitive(requests0[|requests0| - 1].messages, messages0, messages);
    ShapedAppend(c, rounds, owners, messages0, |calls0|, owners[|calls0|], items, id, name, input);
    HistoriesNext(c, rounds, owners, requests0, Request(c.model, c.tools, messages));
    ConversationNext(c, rounds, requests0, calls0, ToolCall(name, input), messages);
    requests := requests + [Request(c.model, c.tools, messages)];
    var reply := c.script[|requests| - 1];
    if reply.ApiError? {
      stop := Outcomes.Some(Raised(reply.reason));
      return;
    }
    response := reply.content;
    if |response| == 1 && response[0].Text? {
      full := full + response[0].text;
      done := true;
    }
  }

  /** The body of the source's `for` loop for block j of `blocks`: append the
      block to the shared list `items`, whose entries in the history are
      those from `start` on, then take the text or the tool-use branch. A
      text block adds its text and clears the flag when the response in hand
      has one block; a tool use makes its tool call and, unless the turn
      stops, the next model call. */
  method WalkStep(c: Setup, ghost rounds: seq<seq<Block>>, ghost owners: seq<int>, start: nat, items: seq<Block>, blocks: seq<Block>, j: nat, ghost t0: Turn, t: Turn)
    returns (stop: Outcomes.Option<LoopEnd>, items': seq<Block>, next: Turn)
    requires 1 <= |t0.requests| && start == |t0.messages| == 2 * |t0.calls| + 1 && j < |blocks|
    // Bound to a name so that the verifier passes Walking on whole instead of re-proving each conjunct.
    requires var walking := Walking(c, rounds, owners, t0, start, blocks, j, items, t); walking
    requires |t0.calls| <= |rounds| && Entries(blocks, |blocks|) <= rounds[|t0.calls|..]
    requires OwnedBy(owners, |t0.calls|, |CallsIn(blocks, |blocks|)|, |t0.requests| - 1)
    ensures items' == blocks[..j + 1]
    ensures next.calls == t.calls + (if blocks[j].ToolUse? then [ToolCall(blocks[j].name, blocks[j].input)] else [])
    ensures Conversation(c, rounds, owners, next.requests, next.calls)
    ensures |next.requests| >= |t.requests|
    ensures stop.Some? ==> Stopped(c, next.requests, next.calls, stop.value)
    ensures blocks[j].Text? ==> stop.None? && next.requests == t.requests && next.messages == Refresh(t.messages, start, items')
    ensures stop.None? ==> var walking := Walking(c, rounds, owners, t0, start, blocks, j + 1, items', next); walking
  {
    if blocks[j].Text? {
      stop := Outcomes.None;
      items', next := WalkText(c, rounds, owners, start, items, blocks, j, t0, t);
    } else {
      stop, items', next := WalkTool(c, rounds, owners, start, items, blocks, j, t0, t);
    }
  }

  /** The text branch of WalkStep. */
  method WalkText(c: Setup, ghost rounds: seq<seq<Block>>, ghost owners: seq<int>, start: nat, items: seq<Block>, blocks: seq<Block>, j: nat, ghost t0: Turn, t: Turn)
    returns (items': seq<Block>, next: Turn)
    requires 1 <= |t0.requests| && start == |t0.messages| == 2 * |t0.calls| + 1 && j < |blocks| && blocks[j].Text?
    requires var walking := Walking(c, rounds, owners, t0, start, blocks, j, items, t); walking
    requires OwnedBy(owners, |t0.calls|, |CallsIn(blocks, |blocks|)|, |t0.requests| - 1)
    ensures items' == blocks[..j + 1]
    ensures next.calls == t.calls && next.requests == t.requests && next.messages == Refresh(t.messages, start, items')
    ensures var conversation := Conversation(c, rounds, owners, next.requests, next.calls); conversation
    ensures var walking := Walking(c, rounds, owners, t0, start, blocks, j + 1, items', next); walking
  {
    assert blocks[..j + 1] == blocks[..j] + [blocks[j]];
    items' := items + [blocks[j]];
    next := t.(messages := Refresh(t.messages, start, items'), full := t.full + blocks[j].text,
               process := if |t.response| == 1 then false else t.process);
    TextKeeps(c, rounds, owners, t0, start, blocks, j, items, t, next);
    TextWalks(c, t0, blocks, j, t, next);
    WalkingFrom(c, rounds, owners, t0, start, blocks, j + 1, items', next);
  }

  /** The tool-use branch of WalkStep: the block joins the shared list, the
      history shows the longer list, and the block is round |t.calls| of the
      replies. */
  method WalkTool(c: Setup, ghost rounds: seq<seq<Block>>, ghost owners: seq<int>, start: nat, items: seq<Block>, blocks: seq<Block>, j: nat, ghost t0: Turn, t: Turn)
    returns (stop: Outcomes.Option<LoopEnd>, items': seq<Block>, next: Turn)
    requires 1 <= |t0.requests| && start == |t0.messages| == 2 * |t0.calls| + 1 && j < |blocks| && blocks[j].ToolUse?
    requires var walking := Walking(c, rounds, owners, t0, start, blocks, j, items, t); walking
    requires |t0.calls| <= |rounds| && Entries(blocks, |blocks|) <= rounds[|t0.calls|..]
    requires OwnedBy(owners, |t0.calls|, |CallsIn(blocks, |blocks|)|, |t0.requests| - 1)
    ensures items' == blocks[..j + 1]
    ensures next.calls == t.calls + [ToolCall(blocks[j].name, blocks[j].input)]
    ensures Conversation(c, rounds, owners, next.requests, next.calls)
    ensures |next.requests| >= |t.requests|
    ensures stop.Some? ==> Stopped(c, next.requests, next.calls, stop.value)
    ensures stop.None? ==> var walking := Walking(c, rounds, owners, t0, start, blocks, j + 1, items', next); walking
  {
    var content := blocks[j];
    assert blocks[..j + 1] == blocks[..j] + [content];
    items' := items + [content];
    var messages := Refresh(t.messages, start, items');
    ToolPrep(c, rounds, owners, t0, start, blocks, j, items, t);
    stop, next := ToolBranch(c, rounds, owners, start, items', messages, content, t);
    if stop.None? {
      ToolWalks(c, t0, blocks, j, t, next);
      WalkingFrom(c, rounds, owners, t0, start, blocks, j + 1, items', next);
    }
  }

  /** The tool-use branch of the `for` loop's body, entered with the shared
      list `items` ending in the tool use and the history `messages` already
      showing it: the tool call is the one the tool use asks for; unless the
      turn stops, one more model call is made and the answer and the flag
      change as Piece and Drops say. */
  method ToolBranch(c: Setup, ghost rounds: seq<seq<Block>>, ghost owners: seq<int>, start: nat, items: seq<Block>, messages: History,
                    tool: Block, t: Turn)
    returns (stop: Outcomes.Option<LoopEnd>, next: Turn)
    requires Live(c, rounds, owners, t)
    requires |items| > 0 && items[|items| - 1] == tool && tool.ToolUse?
    requires Aliased(messages, start, items) && |messages| == |t.messages|
    requires Extends(t.requests[|t.requests| - 1].messages, messages)
    requires |t.calls| < |rounds| && rounds[|t.calls|] == items
    requires |t.calls| < |owners| && Shaped(c, rounds, owners, messages, |t.calls|, owners[|t.calls|], items)
    ensures next.calls == t.calls + [ToolCall(tool.name, tool.input)]
    ensures Conversation(c, rounds, owners, next.requests, next.calls)
    ensures |next.requests| >= |t.requests|
    ensures stop.Some? ==> Stopped(c, next.requests, next.calls, stop.value)
    ensures stop.None? ==>
              && Live(c, rounds, owners, next) && Aliased(next.messages, start, items)
              && |next.requests| == |t.requests| + 1
              && next.full == t.full + Piece(c.script, c.announce, |next.requests| - 1, tool)
              && (next.process <==> t.process && !Drops(c.script, |next.requests| - 1, tool))
              && Shaped(c, rounds, owners, next.messages, |next.calls|, owners[|t.calls|], items)
  {
    var ms, requests, calls, full, response, done;
    stop, ms, requests, calls, full, response, done :=
      ToolStep(c, rounds, owners, items, messages, t.requests, t.calls, t.full, tool.id, tool.name, tool.input);
    next := Turn(ms, requests, calls, response, full, if done then false else t.process);
    if stop.None? {
      ToolKeeps(c, rounds, owners, start, items, messages, next);
    }
  }

  /** The state between blocks, from its parts. */
  lemma {:induction false} WalkingFrom(c: Setup, rounds: seq<seq<Block>>, owners: seq<int>, t0: Turn, start: nat, blocks: seq<Block>, j: nat,
                                       items: seq<Block>, t: Turn)
    requires j <= |blocks| && items == blocks[..j]
    requires var aliased := Aliased(t.messages, start, items); aliased
    requires var live := Live(c, rounds, owners, t); live
    requires var walked := Walked(c, t0, blocks, j, t); walked
    requires var shaped := Shaped(c, rounds, owners, t.messages, |t.calls|, |t0.requests| - 1, items); shaped
    ensures var walking := Walking(c, rounds, owners, t0, start, blocks, j, items, t); walking
  {
  }

  /** The text branch keeps the loop's facts: the block joins the shared
      list and the history shows the longer list; while no tool use was
      met, that list is in no entry of the history yet. */
  lemma {:induction false} TextKeeps(c: Setup, rounds: seq<seq<Block>>, owners: seq<int>, t0: Turn, start: nat, blocks: seq<Block>, j: nat,
                                     items: seq<Block>, t: Turn, next: Turn)
    requires start == |t0.messages| == 2 * |t0.calls| + 1 && j < |blocks| && blocks[j].Text?
    requires var walking := Walking(c, rounds, owners, t0, start, blocks, j, items, t); walking
    requires OwnedBy(owners, |t0.calls|, |CallsIn(blocks, |blocks|)|, |t0.requests| - 1)
    requires next == t.(messages := Refresh(t.messages, start, items + [blocks[j]]), full := t.full + blocks[j].text,
                        process := if |t.response| == 1 then false else t.process)
    ensures Live(c, rounds, owners, next) && Aliased(next.messages, start, items + [blocks[j]])
    ensures Shaped(c, rounds, owners, next.messages, |next.calls|, |t0.requests| - 1, items + [blocks[j]])
    ensures |CallsIn(blocks, j)| == 0 ==> next.messages == t.messages
  {
    var items' := items + [blocks[j]];
    RefreshExtends(t.messages, start, items, items');
    ExtendsTransitive(t.requests[|t.requests| - 1].messages, t.messages, next.messages);
    if |CallsIn(blocks, j)| == 0 {
      RefreshPast(t.messages, start, items');
    }
    EntriesPrefix(blocks, j, |blocks|);
    ShapedRefresh(c, rounds, owners, t.messages, |t.calls|, |t0.requests| - 1, items, |t0.calls|, |CallsIn(blocks, |blocks|)|, items');
  }

  /** The tool-use branch, before the tool call: the block joins the shared
      list, the history shows the longer list, and the block is round
      |t.calls| of the replies, made in the pass over reply
      |t0.requests| - 1. */
  lemma {:induction false} ToolPrep(c: Setup, rounds: seq<seq<Block>>, owners: seq<int>, t0: Turn, start: nat, blocks: seq<Block>, j: nat,
                                    items: seq<Block>, t: Turn)
    requires start == |t0.messages| == 2 * |t0.calls| + 1 && j < |blocks| && blocks[j].ToolUse?
    requires var walking := Walking(c, rounds, owners, t0, start, blocks, j, items, t); walking
    requires |t0.calls| <= |rounds| && Entries(blocks, |blocks|) <= rounds[|t0.calls|..]
    requires OwnedBy(owners, |t0.calls|, |CallsIn(blocks, |blocks|)|, |t0.requests| - 1)
    ensures var ms := Refresh(t.messages, start, items + [blocks[j]]);
            && Extends(t.requests[|t.requests| - 1].messages, ms)
            && |t.calls| < |rounds| && rounds[|t.calls|] == items + [blocks[j]]
            && |t.calls| < |owners| && owners[|t.calls|] == |t0.requests| - 1
            && Shaped(c, rounds, owners, ms, |t.calls|, owners[|t.calls|], items + [blocks[j]])
  {
    var items' := items + [blocks[j]];
    assert blocks[..j + 1] == items';
    var ms := Refresh(t.messages, start, items');
    RefreshExtends(t.messages, start, items, items');
    ExtendsTransitive(t.requests[|t.requests| - 1].messages, t.messages, ms);
    EntryAt(blocks, j);
    assert rounds[|t.calls|] == rounds[|t0.calls|..][|CallsIn(blocks, j)|];
    ShapedRefresh(c, rounds, owners, t.messages, |t.calls|, |t0.requests| - 1, items, |t0.calls|, |CallsIn(blocks, |blocks|)|, items');
  }

  /** The text branch continues the pass. */
  lemma {:induction false} TextWalks(c: Setup, t0: Turn, blocks: seq<Block>, j: nat, t: Turn, next: Turn)
    requires 1 <= |t.requests| <= |c.script| && c.script[|t.requests| - 1] == Reply(t.response)
    requires var walked := Walked(c, t0, blocks, j, t); walked
    requires 1 <= |t0.requests| && j < |blocks| && blocks[j].Text?
    requires |CallsIn(blocks, j)| == 0 ==> next.messages == t.messages
    requires next == t.(messages := next.messages, full := t.full + blocks[j].text,
                        process := if |t.response| == 1 then false else t.process)
    ensures Walked(c, t0, blocks, j + 1, next)
  {
    Outcomes.AppendAssoc(t0.full, PassText(c.script, c.announce, |t0.requests| - 1, blocks, j), blocks[j].text);
  }

  /** The tool-use branch, when it does not stop the turn, continues the
      pass. */
  lemma {:induction false} ToolWalks(c: Setup, t0: Turn, blocks: seq<Block>, j: nat, t: Turn, next: Turn)
    requires var walked := Walked(c, t0, blocks, j, t); walked
    requires 1 <= |t0.requests| && j < |blocks| && blocks[j].ToolUse?
    requires next.calls == t.calls + [ToolCall(blocks[j].name, blocks[j].input)]
    requires |next.requests| == |t.requests| + 1
    requires next.full == t.full + Piece(c.script, c.announce, |next.requests| - 1, blocks[j])
    requires next.process <==> t.process && !Drops(c.script, |next.requests| - 1, blocks[j])
    ensures Walked(c, t0, blocks, j + 1, next)
  {
    var s := |t0.requests| - 1;
    ToolCallWalks(blocks, j, t0.calls, t.calls, next.calls);
    ToolTextWalks(c.script, c.announce, s, blocks, j, t0.full, t.full, next.full);
    ToolFlagWalks(c.script, s, blocks, j, t0.process, t.process, next.process);
  }

  /** A tool use adds its call to those of the pass. */
  lemma {:induction false} ToolCallWalks(blocks: seq<Block>, j: nat, calls0: seq<ToolCall>, calls: seq<ToolCall>,
                                         calls': seq<ToolCall>)
    requires j < |blocks| && blocks[j].ToolUse?
    requires calls == calls0 + CallsIn(blocks, j)
    requires calls' == calls + [ToolCall(blocks[j].name, blocks[j].input)]
    ensures calls' == calls0 + CallsIn(blocks, j + 1)
    ensures |CallsIn(blocks, j + 1)| == |CallsIn(blocks, j)| + 1
  {
    assert CallsIn(blocks, j + 1) == CallsIn(blocks, j) + [ToolCall(blocks[j].name, blocks[j].input)];
    Outcomes.AppendAssoc(calls0, CallsIn(blocks, j), [ToolCall(blocks[j].name, blocks[j].input)]);
  }

  /** A tool use adds its piece to the text of the pass. */
  lemma {:induction false} ToolTextWalks(script: seq<ModelReply>, announce: bool, s: int, blocks: seq<Block>, j: nat,
                                         full0: string, full: string, full': string)
    requires j < |blocks| && blocks[j].ToolUse?
    requires full == full0 + PassText(script, announce, s, blocks, j)
    requires full' == full + Piece(script, announce, s + |CallsIn(blocks, j)| + 1, blocks[j])
    ensures full' == full0 + PassText(script, announce, s, blocks, j + 1)
  {
    assert |CallsIn(blocks, j + 1)| == |CallsIn(blocks, j)| + 1;
    Outcomes.AppendAssoc(full0, PassText(script, announce, s, blocks, j),
                         Piece(script, announce, s + |CallsIn(blocks, j)| + 1, blocks[j]));
  }

  /** A tool use clears the flag of the pass as Drops says. */
  lemma {:induction false} ToolFlagWalks(script: seq<ModelReply>, s: int, blocks: seq<Block>, j: nat,
                                         process0: bool, process: bool, process': bool)
    requires j < |blocks| && blocks[j].ToolUse?
    requires process <==> process0 && !PassDrops(script, s, blocks, j)
    requires process' <==> process && !Drops(script, s + |CallsIn(blocks, j)| + 1, blocks[j])
    ensures process' <==> process0 && !PassDrops(script, s, blocks, j + 1)
  {
    assert |CallsIn(blocks, j + 1)| == |CallsIn(blocks, j)| + 1;
  }

  /** The tool-use branch, when it does not stop the turn, keeps the loop's
      facts. */
  lemma {:induction false} ToolKeeps(c: Setup, rounds: seq<seq<Block>>, owners: seq<int>, start: nat, items: seq<Block>, before: History, next: Turn)
    requires Conversation(c, rounds, owners, next.requests, next.calls)
    requires |next.requests| == |next.calls| + 1 && |before| + 2 == 2 * |next.calls| + 1
    requires Aliased(before, start, items)
    requires |next.messages| == |before| + 2
    requires next.messages == before + [Assistant(items), next.messages[|before| + 1]]
    requires !next.messages[|before| + 1].Assistant?
    requires next.requests[|next.requests| - 1].messages == next.messages
    requires c.script[|next.requests| - 1] == Reply(next.response)
    ensures Live(c, rounds, owners, next) && Aliased(next.messages, start, items)
  {
    var ms := next.messages;
    forall i | 0 <= i < |ms| ensures Grows(ms[i], ms[i]) {
    }
    forall i | start <= i < |ms| && ms[i].Assistant? ensures ms[i].content == items {
      if i < |before| {
        assert ms[i] == before[i];
      }
    }
  }

  /** One pass of the source's `for content in response.content` over the
      response in hand at the start of an iteration of its `while`, with a
      new, empty `assistant_content`. Unless the turn stops, it walks the
      whole response: it makes the tool calls the response asks for, and
      without tool use it leaves the history and the model calls as they
      were. */
  method WalkResponse(c: Setup, ghost rounds: seq<seq<Block>>, ghost owners: seq<int>, t0: Turn) returns (stop: Outcomes.Option<LoopEnd>, t: Turn)
    requires Live(c, rounds, owners, t0)
    requires |t0.calls| <= |rounds| && Entries(t0.response, |t0.response|) <= rounds[|t0.calls|..]
    requires OwnedBy(owners, |t0.calls|, |CallsIn(t0.response, |t0.response|)|, |t0.requests| - 1)
    requires Shaped(c, rounds, owners, t0.messages, |t0.calls|, |t0.requests| - 1, [])
    ensures Conversation(c, rounds, owners, t.requests, t.calls)
    ensures |t.requests| >= |t0.requests|
    ensures stop.Some? ==> Stopped(c, t.requests, t.calls, stop.value)
    ensures stop.None? ==> Live(c, rounds, owners, t) && Walked(c, t0, t0.response, |t0.response|, t)
    ensures stop.None? ==> Shaped(c, rounds, owners, t.messages, |t.calls|, |t0.requests| - 1, t0.response)
    ensures NoToolUse(t0.response) ==> stop.None?
  {
    var assistantContent: seq<Block> := [];
    var start := |t0.messages|;
    var blocks := t0.response;
    stop, t := Outcomes.None, t0;
    var j := 0;
    assert blocks[..0] == [];
    while j < |blocks|
      invariant stop.None? && var walking := Walking(c, rounds, owners, t0, start, blocks, j, assistantContent, t); walking
    {
      stop, assistantContent, t := WalkStep(c, rounds, owners, start, assistantContent, blocks, j, t0, t);
      if stop.Some? {
        return;
      }
      j := j + 1;
    }
    assert blocks[..j] == blocks;
  }

  /** One iteration of the source's `while process_query`: a pass over the
      response in hand. It stops the turn on an exception or the end of the
      script, and detects a pass that made no model call and left the flag
      set, after which the same steps repeat forever. */
  method Pass(c: Setup, ghost p: Plan, t: Turn) returns (end: Outcomes.Option<LoopEnd>, t': Turn)
    requires Live(c, p.rounds, p.owners, t) && OnPlan(c, p, t) && t.process
    ensures end.Some? ==> !end.value.Finished? && Outcome(c, p, t'.requests, t'.calls, end.value)
    ensures end == Outcomes.Some(Spins) ==> Walked(c, t, t.response, |t.response|, t') && t'.process && |CallsIn(t.response, |t.response|)| == 0
    ensures end.None? ==> Live(c, p.rounds, p.owners, t') && Walked(c, t, t.response, |t.response|, t')
    ensures end.None? && t'.process ==> OnPlan(c, p, t') && |t'.requests| > |t.requests|
    ensures end.None? && !t'.process ==> t'.full == p.answer && |t'.calls| == |p.rounds| && !p.spinning
  {
    var stop;
    PlanAhead(c, p, t);
    stop, t' := WalkResponse(c, p.rounds, p.owners, t);
    if stop.Some? {
      return stop, t';
    }
    if t'.process && |t'.requests| == |t.requests| {
      // No model call in this pass: the next pass starts from the same
      // response and the same history, and so on forever.
      PassSpins(c, p, t, t');
      LiveReplied(c, p.rounds, p.owners, t');
      return Outcomes.Some(Spins), t';
    }
    if t'.process {
      PassGoesOn(c, p, t, t');
    } else {
      PassFinishes(c, p, t, t');
    }
    end := Outcomes.None;
  }

  /** At the start of a pass, the response's entries are the next rounds. */
  lemma {:induction false} PlanAhead(c: Setup, p: Plan, t: Turn)
    requires 1 <= |t.requests| <= |c.script| && c.script[|t.requests| - 1] == Reply(t.response)
    requires OnPlan(c, p, t)
    ensures |t.calls| <= |p.rounds| && Entries(t.response, |t.response|) <= p.rounds[|t.calls|..]
    ensures OwnedBy(p.owners, |t.calls|, |CallsIn(t.response, |t.response|)|, |t.requests| - 1)
  {
    var s, k0, n := |t.requests| - 1, |t.calls|, |CallsIn(t.response, |t.response|)|;
    assert Replied(c.script, s) == t.response;
    forall m | k0 <= m < k0 + n ensures p.owners[m] == s {
      assert p.owners[m] == OwnersFrom(c.script, s)[m - k0] == Copies(n, s)[m - k0];
    }
  }

  /** A whole pass that made a tool call and kept the flag: the loop goes
      on from the next response on plan. */
  lemma {:induction false} PassGoesOn(c: Setup, p: Plan, t: Turn, t': Turn)
    requires 1 <= |t.requests| <= |c.script| && c.script[|t.requests| - 1] == Reply(t.response)
    requires OnPlan(c, p, t) && t.process && |t'.requests| <= |c.script|
    requires Walked(c, t, t.response, |t.response|, t')
    requires t'.process && |CallsIn(t.response, |t.response|)| > 0
    requires Shaped(c, p.rounds, p.owners, t'.messages, |t'.calls|, |t.requests| - 1, t.response)
    ensures OnPlan(c, p, t') && |t'.requests| > |t.requests|
  {
    var s, s' := |t.requests| - 1, |t'.requests| - 1;
    assert Carry(c.script, c.announce, s, s', |t.calls|, |t'.calls|, t.full, t'.full);
    RoundsNext(c.script, c.announce, s, s', |t.calls|, |t'.calls|, t.full, t'.full, p.rounds);
    AnswerNext(c.script, c.announce, s, s', |t.calls|, |t'.calls|, t.full, t'.full, p.answer);
    SpinsNext(c.script, c.announce, s, s', |t.calls|, |t'.calls|, t.full, t'.full, p.spinning);
    OwnersNext(c.script, c.announce, s, s', |t.calls|, |t'.calls|, t.full, t'.full, p.owners);
    assert Replied(c.script, s) == t.response;
    ShapedNewPass(c, p.rounds, p.owners, t'.messages, |t'.calls|, s, s');
  }

  /** The loop goes on after its pass over reply s, which took the reply in
      hand from s to s', the calls made from k to k' and the answer so far
      from `full` to `full'`. */
  predicate Carry(script: seq<ModelReply>, announce: bool, s: int, s': int, k: nat, k': nat, full: string, full': string)
  {
    && Continues(script, s)
    && var b := Replied(script, s);
       && s' == s + |CallsIn(b, |b|)| && k' == k + |CallsIn(b, |b|)|
       && full' == full + PassText(script, announce, s, b, |b|)
  }

  /** The rounds carried over a pass the loop goes on from: the rounds from
      k on were left to the passes from reply s on; those from k' on are left
      to the passes from reply s' on. */
  lemma {:induction false} RoundsNext(script: seq<ModelReply>, announce: bool, s: int, s': int, k: nat, k': nat,
                                      full: string, full': string, rounds: seq<seq<Block>>)
    requires Carry(script, announce, s, s', k, k', full, full')
    requires k <= |rounds| && rounds[k..] == RoundsFrom(script, s)
    ensures s < s' < |script|
    ensures k' <= |rounds| && rounds[k'..] == RoundsFrom(script, s')
  {
    var b := Replied(script, s);
    assert s' == s + |CallsIn(b, |b|)|;
    RoundsDrop(script, s, k, rounds);
  }

  /** The rounds left after the entries of a pass the loop goes on from are
      those of the passes from the reply its last call brought. */
  lemma {:induction false} RoundsDrop(script: seq<ModelReply>, s: int, k: nat, rounds: seq<seq<Block>>)
    requires Continues(script, s)
    requires k <= |rounds| && rounds[k..] == RoundsFrom(script, s)
    ensures var b := Replied(script, s);
            var n := |CallsIn(b, |b|)|;
            && s + n < |script| && k + n <= |rounds| && rounds[k + n..] == RoundsFrom(script, s + n)
  {
    var b := Replied(script, s);
    var n := |CallsIn(b, |b|)|;
    assert |Entries(b, |b|)| == n;
    RoundsGoOn(script, s);
    Outcomes.DropFront(rounds, k, RoundsFrom(script, s), Entries(b, |b|), RoundsFrom(script, s + n));
  }

  /** The passes carried over a pass the loop goes on from: the calls from k
      on are those of the passes from reply s on, those from k' on of the
      passes from reply s' on; the calls before k' belong to reply s or
      earlier, so to passes before the one over reply s'. */
  lemma {:induction false} OwnersNext(script: seq<ModelReply>, announce: bool, s: int, s': int, k: nat, k': nat,
                                      full: string, full': string, owners: seq<int>)
    requires Carry(script, announce, s, s', k, k', full, full')
    requires k <= |owners| && owners[k..] == OwnersFrom(script, s)
    requires forall m :: 0 <= m < k ==> owners[m] < s
    ensures k' <= |owners| && owners[k'..] == OwnersFrom(script, s')
    ensures forall m :: 0 <= m < k' ==> owners[m] <= s < s'
  {
    var b := Replied(script, s);
    var n := |CallsIn(b, |b|)|;
    assert s' == s + n && k' == k + n;
    OwnersGoOn(script, s);
    Outcomes.DropFront(owners, k, OwnersFrom(script, s), Copies(n, s), OwnersFrom(script, s'));
    forall m | k <= m < k' ensures owners[m] == s {
      assert owners[m] == owners[k..][m - k] == Copies(n, s)[m - k];
    }
  }

  /** The answer carried over a pass the loop goes on from: the text the pass
      added moves from what is left into the answer so far. */
  lemma {:induction false} AnswerNext(script: seq<ModelReply>, announce: bool, s: int, s': int, k: nat, k': nat,
                                      full: string, full': string, answer: string)
    requires Carry(script, announce, s, s', k, k', full, full')
    requires answer == full + AnswerFrom(script, announce, s)
    ensures answer == full' + AnswerFrom(script, announce, s')
  {
    AnswerGoesOn(script, announce, s);
    var b := Replied(script, s);
    Outcomes.AppendAssoc(full, PassText(script, announce, s, b, |b|), AnswerFrom(script, announce, s'));
  }

  /** The spin carried over a pass the loop goes on from. */
  lemma {:induction false} SpinsNext(script: seq<ModelReply>, announce: bool, s: int, s': int, k: nat, k': nat,
                                     full: string, full': string, spinning: bool)
    requires Carry(script, announce, s, s', k, k', full, full')
    requires spinning <==> SpinsFrom(script, s)
    ensures spinning <==> SpinsFrom(script, s')
  {
    SpinsGoOn(script, s);
  }

  /** A whole pass that cleared the flag: the loop finished with the planned
      answer after every planned call. */
  lemma {:induction false} PassFinishes(c: Setup, p: Plan, t: Turn, t': Turn)
    requires 1 <= |t.requests| <= |c.script| && c.script[|t.requests| - 1] == Reply(t.response)
    requires OnPlan(c, p, t) && t.process
    requires Walked(c, t, t.response, |t.response|, t')
    requires !t'.process
    ensures t'.full == p.answer && |t'.calls| == |p.rounds| && !p.spinning
  {
    var s := |t.requests| - 1;
    assert !Continues(c.script, s);
    PlanEnds(c.script, c.announce, s);
  }

  /** A pass that made no call and kept the flag: the replies lead to a spin
      after every planned call, on a response with no tool use and not
      exactly one block. */
  lemma {:induction false} PassSpins(c: Setup, p: Plan, t: Turn, t': Turn)
    requires 1 <= |t.requests| <= |c.script| && c.script[|t.requests| - 1] == Reply(t.response)
    requires OnPlan(c, p, t) && t.process
    requires Walked(c, t, t.response, |t.response|, t')
    requires t'.process && |CallsIn(t.response, |t.response|)| == 0
    ensures p.spinning && |t'.calls| == |p.rounds|
    ensures NoToolUse(t.response) && |t.response| != 1
  {
    var s := |t.requests| - 1;
    assert !Continues(c.script, s);
    PlanEnds(c.script, c.announce, s);
    CallsInNone(t.response, |t.response|);
    LoneTextDrops(c.script, s);
  }

  /** The source's `while process_query` loop, from the state t0 after the
      first model call. */
  method Passes(c: Setup, ghost p: Plan, t0: Turn) returns (end: LoopEnd, t: Turn)
    requires Live(c, p.rounds, p.owners, t0) && OnPlan(c, p, t0) && t0.process
    ensures Outcome(c, p, t.requests, t.calls, end)
  {
    t := t0;
    while t.process
      invariant Live(c, p.rounds, p.owners, t)
      invariant t.process ==> OnPlan(c, p, t)
      invariant !t.process ==> t.full == p.answer && |t.calls| == |p.rounds| && !p.spinning
      decreases |c.script| - |t.requests|, t.process
    {
      var stop, t' := Pass(c, p, t);
      if stop.Some? {
        return stop.value, t';
      }
      t := t';
    }
    LiveReplied(c, p.rounds, p.owners, t);
    end := Finished(t.full);
  }

  /** How the loop ended, measured against the plan p of the replies: the
      calls form a conversation, an exception or the end of the script stops
      the turn as Stopped says, and the loop finishes or spins only after a
      model reply that answered every tool call, having made every planned
      call; it finishes with the planned answer when the plan has no spin,
      and spins on a reply with no tool use and not exactly one block. */
  predicate Outcome(c: Setup, p: Plan, requests: seq<Request>, calls: seq<ToolCall>, end: LoopEnd)
  {
    && Conversation(c, p.rounds, p.owners, requests, calls)
    && (end.Raised? || end.OutOfScript? ==> Stopped(c, requests, calls, end))
    && (end.Finished? || end.Spins? ==>
          && 0 < |requests| == |calls| + 1 <= |c.script| && c.script[|requests| - 1].Reply?
          && |calls| == |p.rounds|)
    && (end.Finished? ==> end.answer == p.answer && !p.spinning)
    && (end.Spins? ==>
          && p.spinning
          && NoToolUse(c.script[|requests| - 1].content) && |c.script[|requests| - 1].content| != 1)
  }

  /** Between two blocks the last model call has answered every tool call. */
  lemma {:induction false} LiveReplied(c: Setup, rounds: seq<seq<Block>>, owners: seq<int>, t: Turn)
    requires Live(c, rounds, owners, t)
    ensures Conversation(c, rounds, owners, t.requests, t.calls)
    ensures 0 < |t.requests| == |t.calls| + 1 <= |c.script| && c.script[|t.requests| - 1].Reply?
  {
  }

  /** The turn of the two front ends: the first model call with the query
      alone, then the loop. `requests` are the model calls made, in order,
      with the history as it stood at each call; `calls` are the tool calls
      made, in order. */
  method RunTurn(c: Setup) returns (end: LoopEnd, requests: seq<Request>, calls: seq<ToolCall>)
    ensures Ended(c, requests, calls, end)
  {
    var messages: History := [UserText(c.query)];
    if |c.script| == 0 {
      return OutOfScript, [], [];
    }
    requests, calls := [Request(c.model, c.tools, messages)], [];
    FirstCall(c);
    if c.script[0].ApiError? {
      return Raised(c.script[0].reason), requests, calls;
    }
    var t := Turn(messages, requests, calls, c.script[0].content, "", true);
    ghost var p := Plan(Rounds(c.script), Owners(c.script), Answer(c.script, c.announce), Spinning(c.script));
    TurnStarts(c, p, t);
    end, t := Passes(c, p, t);
    requests, calls := t.requests, t.calls;
    OutcomeEnded(c, p, requests, calls, end);
  }

  /** The first model call, with the query alone, is a conversation. */
  lemma {:induction false} FirstCall(c: Setup)
    requires |c.script| > 0
    ensures Conversation(c, Rounds(c.script), Owners(c.script), [Request(c.model, c.tools, [UserText(c.query)])], [])
  {
  }

  /** After the first model call, the loop starts on the plan of the whole
      script, with the query alone in the history. */
  lemma {:induction false} TurnStarts(c: Setup, p: Plan, t: Turn)
    requires |c.script| > 0 && c.script[0].Reply?
    requires p == Plan(Rounds(c.script), Owners(c.script), Answer(c.script, c.announce), Spinning(c.script))
    requires t == Turn([UserText(c.query)], [Request(c.model, c.tools, [UserText(c.query)])], [], c.script[0].content, "", true)
    ensures Live(c, p.rounds, p.owners, t) && OnPlan(c, p, t) && t.process
  {
    FirstCall(c);
    assert p.rounds[0..] == p.rounds && p.owners[0..] == p.owners;
    assert t.messages[0] == HistoryEntry(c, p.rounds, p.owners, 0, [], 0);
  }

  /** An outcome against the plan of the whole script is how the turn ended. */
  lemma {:induction false} OutcomeEnded(c: Setup, p: Plan, requests: seq<Request>, calls: seq<ToolCall>, end: LoopEnd)
    requires |c.script| > 0
    requires p == Plan(Rounds(c.script), Owners(c.script), Answer(c.script, c.announce), Spinning(c.script))
    requires Outcome(c, p, requests, calls, end)
    ensures Ended(c, requests, calls, end)
  {
  }
}
