/** Rows of the chat tables and the provider-neutral messages rebuilt from them. */
module Records {
  import opened Wallet

  /** A freshly generated UUID (session, turn, tool call): a number never handed out before. */
  type Id = nat

  datatype Block =
    | Text(text: string)
    | ToolUse(id: string, name: string, input: string)
    | ToolOutput(id: string, output: string, isError: bool)
    | Other(data: string)

  /** `cut` repeats what the audit row of the step says: the reply ended at the output-token limit. */
  datatype Body =
    | User(content: seq<Block>, actionPrompt: Option<string>)
    | Assistant(content: seq<Block>, cut: bool)
    | Tool(call: Id, provider: string, tool: string, result: Option<string>, error: Option<string>)

  /** A row of `chat_steps`; `turn` is its `message_step_id`, `seq` is its place in the history. */
  datatype Step = Step(turn: Id, body: Body)

  datatype Status = Pending | Completed | Errored

  /** A row of `tool_calls`. */
  datatype Call = Call(turn: Id, tool: string, args: string, provider: string,
                       status: Status, result: Option<string>)

  /** One session: its steps in `seq` order and its tool calls. */
  datatype Chat = Chat(steps: seq<Step>, calls: map<Id, Call>)

  datatype Message =
    | UserMessage(blocks: seq<Block>)
    | AssistantMessage(blocks: seq<Block>)
    | ToolMessage(call: Id, provider: string, tool: string, result: Option<string>, error: Option<string>)

  function ToMessage(step: Step): Message {
    match step.body
    case User(content, actionPrompt) =>
      UserMessage(if actionPrompt.Some? && actionPrompt.value != ""
                  then content + [Text(actionPrompt.value)] else content)
    case Assistant(content, _) => AssistantMessage(content)
    case Tool(call, provider, tool, result, error) => ToolMessage(call, provider, tool, result, error)
  }

  /** `_build_messages`: one message per stored step, in order. */
  function Build(steps: seq<Step>): (r: seq<Message>)
    ensures |r| == |steps|
    ensures forall i :: 0 <= i < |r| ==> r[i] == ToMessage(steps[i])
  {
    seq(|steps|, i requires 0 <= i < |steps| => ToMessage(steps[i]))
  }

  /** The tool_use blocks of a reply, in block order. */
  function ToolUses(content: seq<Block>): (r: seq<Block>)
    ensures forall b :: b in r <==> b in content && b.ToolUse?
  {
    if content == [] then []
    else (if content[0].ToolUse? then [content[0]] else []) + ToolUses(content[1..])
  }

  function ToolIds(content: seq<Block>): set<string> {
    set b <- content | b.ToolUse? :: b.id
  }

  function TextOf(content: seq<Block>): string {
    if content == [] then ""
    else (if content[0].Text? then content[0].text else "") + TextOf(content[1..])
  }

  /** The step body that a message was made from, if it carried no hidden prompt. */
  function ReadBack(m: Message): Body {
    match m
    case UserMessage(blocks) => User(blocks, None)
    case AssistantMessage(blocks) => Assistant(blocks, false)
    case ToolMessage(call, provider, tool, result, error) => Tool(call, provider, tool, result, error)
  }

  /** The model sees what is stored: a message can be read back into its step, but for the hidden prompt,
      which comes last in its user message, and for whether a reply had been cut off. */
  lemma {:induction false} MessagesReadBack(steps: seq<Step>, i: nat)
    requires i < |steps|
    ensures match steps[i].body
            case User(content, prompt) =>
              var seen := ReadBack(Build(steps)[i]);
              && seen.User? && content <= seen.content && |seen.content| <= |content| + 1
              && (seen.content == content <==> prompt.None? || prompt.value == "")
              && (seen.content != content ==> seen.content[|content|] == Text(prompt.value))
            case Assistant(content, _) => ReadBack(Build(steps)[i]) == Assistant(content, false)
            case Tool(_, _, _, _, _) => ReadBack(Build(steps)[i]) == steps[i].body
  {
    assert Build(steps)[i] == ToMessage(steps[i]);
  }

  lemma {:induction false} ToolsHead(content: seq<Block>)
    ensures content == [] ==> ToolUses(content) == []
    ensures content != [] ==>
              ToolUses(content) == (if content[0].ToolUse? then [content[0]] else []) + ToolUses(content[1..])
  {
  }

  /** The tools of a reply come in the order of its blocks. */
  lemma {:induction false} ToolsInOrder(a: seq<Block>, b: seq<Block>)
    ensures ToolUses(a + b) == ToolUses(a) + ToolUses(b)
    ensures |a| == 1 ==> ToolUses(a) == if a[0].ToolUse? then a else []
  {
    hide ToolUses;
    ToolsHead(a);
    ToolsHead(a + b);
    ToolsHead([]);
    if a == [] {
      assert a + b == b;
    } else {
      ToolsInOrder(a[1..], b);
      assert (a + b)[1..] == a[1..] + b && (a + b)[0] == a[0];
      var own := if a[0].ToolUse? then [a[0]] else [];
      assert own + (ToolUses(a[1..]) + ToolUses(b)) == own + ToolUses(a[1..]) + ToolUses(b);
    }
  }

  /** So do the pieces of its text. */
  lemma {:induction false} TextInOrder(a: seq<Block>, b: seq<Block>)
    ensures TextOf(a + b) == TextOf(a) + TextOf(b)
    ensures |a| == 1 ==> TextOf(a) == if a[0].Text? then a[0].text else ""
  {
    if a == [] {
      assert a + b == b && TextOf(a) + TextOf(b) == TextOf(b);
    } else {
      TextInOrder(a[1..], b);
      assert (a + b)[1..] == a[1..] + b && (a + b)[0] == a[0];
      var own := if a[0].Text? then a[0].text else "";
      assert own + (TextOf(a[1..]) + TextOf(b)) == own + TextOf(a[1..]) + TextOf(b);
      if |a| == 1 { assert a[1..] == [] && own + "" == own; }
    }
  }
}
