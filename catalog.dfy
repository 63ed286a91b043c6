/** The capability catalog a tool server exposes (tools, prompts, resources),
    normalised into flat descriptors, and the enabled-tool filter. */
module Catalog {
  import opened Outcomes

  /** The part of a tool's input schema the front ends look at: the names of
      its "properties", in order, when the schema has that key. */
  datatype Schema = Schema(properties: Option<seq<string>>)

  datatype ToolSpec = ToolSpec(name: string, description: string, inputSchema: Schema)
  datatype PromptSpec = PromptSpec(name: string, description: string)
  datatype ResourceSpec = ResourceSpec(name: string, description: string, uri: string)

  /** A prompt or resource as the server lists it; `description` is None when
      the listed object has no such attribute. */
  datatype WirePrompt = WirePrompt(name: string, description: Option<string>)
  datatype WireResource = WireResource(name: string, description: Option<string>, uri: string)

  /** The content of a prompt message: text, or something else that is shown
      as its `str()`. */
  datatype MessageContent = TextContent(text: string) | OtherContent(rendered: string)

  /** `msg.content.text` when the content has text, else `str(msg.content)`. */
  function ContentText(c: MessageContent): string
  {
    match c
    case TextContent(text) => text
    case OtherContent(rendered) => rendered
  }

  function ContentTexts(ms: seq<MessageContent>): (texts: seq<string>)
    ensures |texts| == |ms| && forall i :: 0 <= i < |ms| ==> texts[i] == ContentText(ms[i])
  {
    seq(|ms|, i requires 0 <= i < |ms| => ContentText(ms[i]))
  }

  /** What `session.get_prompt` returns: its messages, a direct `content`
      attribute when it has one, and its `str()`. */
  datatype PromptReply = PromptReply(messages: seq<MessageContent>, content: Option<string>, rendered: string)

  /** An item of what `session.read_resource` returns. */
  datatype ResourceItem = TextItem(text: string) | OtherItem(rendered: string)

  /** `item.text` when the item has text, else `str(item)`. */
  function ItemText(item: ResourceItem): string
  {
    match item
    case TextItem(text) => text
    case OtherItem(rendered) => rendered
  }

  function ItemTexts(items: seq<ResourceItem>): (texts: seq<string>)
    ensures |texts| == |items| && forall i :: 0 <= i < |items| ==> texts[i] == ItemText(items[i])
  {
    seq(|items|, i requires 0 <= i < |items| => ItemText(items[i]))
  }

  datatype ResourceReply = ResourceReply(contents: seq<ResourceItem>, rendered: string)

  function Names(tools: seq<ToolSpec>): set<string>
  {
    set i | 0 <= i < |tools| :: tools[i].name
  }

  /** `[tool for tool in tools if tool["name"] in enabled]`. */
  function FilterTools(tools: seq<ToolSpec>, enabled: set<string>): seq<ToolSpec>
  {
    if tools == [] then []
    else (if tools[0].name in enabled then [tools[0]] else []) + FilterTools(tools[1..], enabled)
  }

  /** The filter keeps exactly the enabled entries: it distributes over
      concatenation and keeps a single entry iff its name is enabled, which
      fixes both the members and their catalog order. */
  lemma {:induction false} FilterToolsAppend(a: seq<ToolSpec>, b: seq<ToolSpec>, enabled: set<string>)
    ensures FilterTools(a + b, enabled) == FilterTools(a, enabled) + FilterTools(b, enabled)
  {
    if a == [] {
      assert a + b == b;
    } else {
      var head := if a[0].name in enabled then [a[0]] else [];
      assert (a + b)[0] == a[0];
      assert (a + b)[1..] == a[1..] + b;
      assert FilterTools(a + b, enabled) == head + FilterTools(a[1..] + b, enabled);
      FilterToolsAppend(a[1..], b, enabled);
      assert FilterTools(a, enabled) == head + FilterTools(a[1..], enabled);
      assert head + (FilterTools(a[1..], enabled) + FilterTools(b, enabled))
          == (head + FilterTools(a[1..], enabled)) + FilterTools(b, enabled);
    }
  }

  lemma FilterToolsSingle(t: ToolSpec, enabled: set<string>)
    ensures FilterTools([t], enabled) == if t.name in enabled then [t] else []
  {
    assert [t][1..] == [];
  }

  /** A tool is sent iff it is in the catalog and its name is enabled. */
  lemma {:induction false} FilterToolsMembers(tools: seq<ToolSpec>, enabled: set<string>, t: ToolSpec)
    ensures t in FilterTools(tools, enabled) <==> t in tools && t.name in enabled
  {
    if tools != [] {
      FilterToolsMembers(tools[1..], enabled, t);
      assert tools == [tools[0]] + tools[1..];
    }
  }

  /** Enabling every catalog name sends the whole catalog; enabling none sends nothing. */
  lemma {:induction false} FilterToolsExtremes(tools: seq<ToolSpec>, enabled: set<string>)
    ensures Names(tools) <= enabled ==> FilterTools(tools, enabled) == tools
    ensures enabled * Names(tools) == {} ==> FilterTools(tools, enabled) == []
  {
    if tools != [] {
      var rest := tools[1..];
      assert Names(tools) == {tools[0].name} + Names(rest) by {
        forall n | n in Names(rest) ensures n in Names(tools) {
          var i :| 0 <= i < |rest| && rest[i].name == n;
          assert tools[i + 1].name == n;
        }
        forall n | n in Names(tools) ensures n == tools[0].name || n in Names(rest) {
          var i :| 0 <= i < |tools| && tools[i].name == n;
          if i > 0 { assert rest[i - 1].name == n; }
        }
      }
      FilterToolsExtremes(rest, enabled);
      assert tools == [tools[0]] + rest;
      assert enabled * Names(rest) <= enabled * Names(tools);
      assert tools[0].name in enabled ==> tools[0].name in enabled * Names(tools);
    }
  }

  lemma NamesSnoc(tools: seq<ToolSpec>, i: nat)
    requires i < |tools|
    ensures Names(tools[..i + 1]) == Names(tools[..i]) + {tools[i].name}
  {
    var a, b := tools[..i + 1], tools[..i];
    forall n | n in Names(a) ensures n in Names(b) + {tools[i].name} {
      var j :| 0 <= j < |a| && a[j].name == n;
      if j < i { assert b[j].name == n; }
    }
    forall n | n in Names(b) ensures n in Names(a) {
      var j :| 0 <= j < |b| && b[j].name == n;
      assert a[j].name == n;
    }
    assert a[i].name == tools[i].name;
  }
}
