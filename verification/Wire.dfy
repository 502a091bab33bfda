/** From stored steps to provider messages and to the history view, with lists shared by reference.

Content lists are objects, as in the code: a message holds the very list of its step, a provider
message the list of its message. None of the methods below has a `modifies` clause, so none changes a
list, a step or a message that existed before it ran. */
module Wire {
  import opened Wallet
  import opened Records
  import ContextBlock
  import Strings

  /** A list that anyone holding it may append to. */
  class SharedList {
    var blocks: seq<Block>

    constructor (blocks: seq<Block>)
      ensures this.blocks == blocks
    {
      this.blocks := blocks;
    }
  }

  /** A stored step: its payload, with the content list as an object of its own. */
  class StepRow {
    const turn: Id
    const body: Body
    const content: SharedList

    constructor (turn: Id, body: Body, content: SharedList)
      ensures this.turn == turn && this.body == body && this.content == content
    {
      this.turn, this.body, this.content := turn, body, content;
    }

    /** The step as a value: `body` with the blocks the list holds now. */
    function Value(): Step reads content {
      Step(turn, match body
                 case User(_, prompt) => User(content.blocks, prompt)
                 case Assistant(_, cut) => Assistant(content.blocks, cut)
                 case Tool(_, _, _, _, _) => body)
    }
  }

  datatype Role = UserRole | AssistantRole | ToolRole

  class NeutralMessage {
    const role: Role
    const content: SharedList
    const record: Body

    constructor (role: Role, content: SharedList, record: Body)
      ensures this.role == role && this.content == content && this.record == record
    {
      this.role, this.content, this.record := role, content, record;
    }

    function Value(): Message reads content {
      if role.UserRole? then UserMessage(content.blocks)
      else if role.AssistantRole? then AssistantMessage(content.blocks)
      else if record.Tool? then ToolMessage(record.call, record.provider, record.tool, record.result, record.error)
      else UserMessage([])
    }
  }

  /** A provider message: tool results travel under the user role. */
  datatype Sent = Sent(assistant: bool, blocks: seq<Block>)

  class ProviderMessage {
    const assistant: bool
    var content: SharedList

    constructor (assistant: bool, content: SharedList)
      ensures this.assistant == assistant && this.content == content
    {
      this.assistant, this.content := assistant, content;
    }
  }

  /** How a tool result is written for the provider. */
  type Show = (Option<string>, Option<string>) -> string

  function ToSent(show: Show, m: Message): Sent {
    match m
    case UserMessage(blocks) => Sent(false, blocks)
    case AssistantMessage(blocks) => Sent(true, blocks)
    case ToolMessage(_, provider, _, result, error) => Sent(false, [ToolOutput(provider, show(result, error), error.Some?)])
  }

  function AllSent(show: Show, ms: seq<Message>): (r: seq<Sent>)
    ensures |r| == |ms| && forall i :: 0 <= i < |ms| ==> r[i] == ToSent(show, ms[i])
  {
    seq(|ms|, i requires 0 <= i < |ms| => ToSent(show, ms[i]))
  }

  /** Attachments join the last message of the user role, which may carry a tool result. */
  function Inject(sent: seq<Sent>, attachments: seq<Block>): seq<Sent> {
    if sent == [] then []
    else
      var n := |sent| - 1;
      if !sent[n].assistant then sent[n := Sent(false, sent[n].blocks + attachments)]
      else Inject(sent[..n], attachments) + [sent[n]]
  }

  ghost function Values(steps: seq<StepRow>): (r: seq<Step>)
    reads set s <- steps :: s.content
    ensures |r| == |steps| && forall i :: 0 <= i < |steps| ==> r[i] == steps[i].Value()
  {
    seq(|steps|, i requires 0 <= i < |steps| reads set s <- steps :: s.content => steps[i].Value())
  }

  /** The neutral history: a user step with an action prompt gets a new list with the hidden block at
      its end; every other message shares the list of its step. */
  method BuildMessages(steps: seq<StepRow>) returns (messages: seq<NeutralMessage>)
    ensures |messages| == |steps|
    ensures forall i :: 0 <= i < |steps| ==> messages[i].Value() == ToMessage(steps[i].Value())
    ensures forall i :: 0 <= i < |steps| ==> messages[i].content == steps[i].content || fresh(messages[i].content)
  {
    messages := [];
    for i := 0 to |steps|
      invariant |messages| == i
      invariant forall j :: 0 <= j < i ==> messages[j].Value() == ToMessage(steps[j].Value())
      invariant forall j :: 0 <= j < i ==> messages[j].content == steps[j].content || fresh(messages[j].content)
    {
      var step := steps[i];
      var m: NeutralMessage;
      match step.body {
        case User(_, prompt) =>
          if prompt.Some? && prompt.value != "" {
            var list := new SharedList(step.content.blocks + [Text(prompt.value)]);
            m := new NeutralMessage(UserRole, list, step.body);
          } else {
            m := new NeutralMessage(UserRole, step.content, step.body);
          }
        case Assistant(_, _) => m := new NeutralMessage(AssistantRole, step.content, step.body);
        case Tool(_, _, _, _, _) => m := new NeutralMessage(ToolRole, step.content, step.body);
      }
      messages := messages + [m];
    }
  }

  /** One provider message per neutral message; user and assistant content lists are passed on. */
  method BuildProviderMessages(show: Show, messages: seq<NeutralMessage>) returns (out: seq<ProviderMessage>)
    ensures |out| == |messages| && fresh(out)
    ensures forall i, j :: 0 <= i < j < |out| ==> out[i] != out[j]
    ensures forall i :: 0 <= i < |out| ==>
              Sent(out[i].assistant, out[i].content.blocks) == ToSent(show, messages[i].Value())
  {
    out := [];
    for i := 0 to |messages|
      invariant |out| == i && fresh(out)
      invariant forall j, k :: 0 <= j < k < i ==> out[j] != out[k]
      invariant forall j :: 0 <= j < i ==>
                  Sent(out[j].assistant, out[j].content.blocks) == ToSent(show, messages[j].Value())
    {
      var m := messages[i];
      var w: ProviderMessage;
      if m.role.ToolRole? && m.record.Tool? {
        var error := m.record.error;
        var list := new SharedList([ToolOutput(m.record.provider, show(m.record.result, error), error.Some?)]);
        w := new ProviderMessage(false, list);
      } else if m.role.ToolRole? {
        var list := new SharedList([]);
        w := new ProviderMessage(false, list);
      } else {
        w := new ProviderMessage(m.role.AssistantRole?, m.content);
      }
      out := out + [w];
    }
  }

  ghost function MessageValues(messages: seq<NeutralMessage>): (r: seq<Message>)
    reads set m <- messages :: m.content
    ensures |r| == |messages| && forall i :: 0 <= i < |r| ==> r[i] == messages[i].Value()
  {
    seq(|messages|, i requires 0 <= i < |messages| reads set m <- messages :: m.content => messages[i].Value())
  }

  /** The last user-role message takes the attachments; without one there is nowhere to put them. */
  lemma {:induction false} InjectAt(sent: seq<Sent>, k: nat, attachments: seq<Block>)
    requires k <= |sent| && forall j :: k <= j < |sent| ==> sent[j].assistant
    requires k > 0 ==> !sent[k - 1].assistant
    ensures Inject(sent, attachments) ==
            if k == 0 then sent else sent[k - 1 := Sent(false, sent[k - 1].blocks + attachments)]
  {
    if sent != [] {
      var n := |sent| - 1;
      if sent[n].assistant { InjectAt(sent[..n], k, attachments); }
    }
  }

  method InjectAttachments(wires: seq<ProviderMessage>, attachments: seq<Block>, ghost plain: seq<Sent>)
    requires |plain| == |wires|
    requires forall i :: 0 <= i < |wires| ==> Sent(wires[i].assistant, wires[i].content.blocks) == plain[i]
    requires forall i, j :: 0 <= i < j < |wires| ==> wires[i] != wires[j]
    modifies wires
    ensures |Inject(plain, attachments)| == |wires|
    ensures forall i :: 0 <= i < |wires| ==>
              Sent(wires[i].assistant, wires[i].content.blocks) == Inject(plain, attachments)[i]
  {
    var k := |wires|;
    while k > 0 && wires[k - 1].assistant
      invariant 0 <= k <= |wires|
      invariant forall j :: k <= j < |wires| ==> plain[j].assistant
    {
      assert plain[k - 1].assistant;
      k := k - 1;
    }
    InjectAt(plain, k, attachments);
    if k > 0 {
      var list := new SharedList(wires[k - 1].content.blocks + attachments);
      wires[k - 1].content := list;
    }
  }

  /** `create_message`, up to the request: the attachments go into a new list for the last user-role
      message, never into the shared one. */
  method CreateMessage(show: Show, messages: seq<NeutralMessage>, attachments: seq<Block>) returns (sent: seq<Sent>)
    ensures sent == WithAttachments(AllSent(show, MessageValues(messages)), attachments)
  {
    var wires := BuildProviderMessages(show, messages);
    ghost var plain := AllSent(show, MessageValues(messages));
    if attachments != [] { InjectAttachments(wires, attachments, plain); }
    sent := [];
    for i := 0 to |wires|
      invariant |sent| == i
      invariant forall j :: 0 <= j < i ==> sent[j] == Sent(wires[j].assistant, wires[j].content.blocks)
    {
      sent := sent + [Sent(wires[i].assistant, wires[i].content.blocks)];
    }
  }

  function WithAttachments(sent: seq<Sent>, attachments: seq<Block>): seq<Sent> {
    if attachments == [] then sent else Inject(sent, attachments)
  }

  /** What one model call sends: the stored steps, and the attachments if it is handed any. */
  ghost function CallOf(show: Show, steps: seq<StepRow>, attachments: seq<Block>): seq<Sent>
    reads set s <- steps :: s.content
  {
    WithAttachments(AllSent(show, Build(Values(steps))), attachments)
  }

  method SendOnce(show: Show, steps: seq<StepRow>, attachments: seq<Block>) returns (sent: seq<Sent>)
    ensures sent == CallOf(show, steps, attachments)
  {
    hide AllSent, WithAttachments;
    var messages := BuildMessages(steps);
    assert MessageValues(messages) == Build(Values(steps));
    sent := CreateMessage(show, messages, attachments);
  }

  /** The model calls of one request; `histories[i]` are the steps stored when the i-th call is made.
      Every call sends exactly what its steps say, however often lists were built before; the
      attachments reach the first call only; and no list, step or message that existed before is
      changed. */
  method SendRounds(show: Show, histories: seq<seq<StepRow>>, attachments: seq<Block>) returns (calls: seq<seq<Sent>>)
    ensures |calls| == |histories|
    ensures forall i :: 0 <= i < |calls| ==> calls[i] == CallOf(show, histories[i], if i == 0 then attachments else [])
  {
    hide CallOf;
    calls := [];
    var extra := attachments;
    for i := 0 to |histories|
      invariant |calls| == i && extra == if i == 0 then attachments else []
      invariant forall j :: 0 <= j < i ==> calls[j] == CallOf(show, histories[j], if j == 0 then attachments else [])
    {
      var sent := SendOnce(show, histories[i], extra);
      calls := calls + [sent];
      extra := [];
    }
  }

  /** The hidden block of a user step: one, at the end, and the rest is the stored content. */
  lemma {:induction false} OneHiddenBlock(show: Show, s: Step)
    requires s.body.User? && s.body.actionPrompt.Some? && s.body.actionPrompt.value != ""
    ensures var sent := ToSent(show, ToMessage(s));
            && |sent.blocks| == |s.body.content| + 1
            && sent.blocks[..|s.body.content|] == s.body.content
            && sent.blocks[|s.body.content|] == Text(s.body.actionPrompt.value)
  {
  }

  /** What a step sends of its own. */
  function Own(show: Show, body: Body): seq<Block> {
    match body
    case User(content, prompt) => content + if prompt.Some? && prompt.value != "" then [Text(prompt.value)] else []
    case Assistant(content, _) => content
    case Tool(_, provider, _, result, error) => [ToolOutput(provider, show(result, error), error.Some?)]
  }

  /** The last step that is not a reply. */
  predicate LastHeard(steps: seq<Step>, i: int)
    requires 0 <= i < |steps|
  {
    !steps[i].body.Assistant? && forall j :: i < j < |steps| ==> steps[j].body.Assistant?
  }

  /** What the provider is sent says what is stored: each step its own blocks under its own role, and the
      attachments once, behind the last step that is not a reply. */
  lemma {:induction false} SentSays(show: Show, steps: seq<Step>, attachments: seq<Block>, i: nat)
    requires i < |steps|
    ensures var sent := WithAttachments(AllSent(show, Build(steps)), attachments);
            && |sent| == |steps| && (sent[i].assistant <==> steps[i].body.Assistant?)
            && sent[i].blocks == Own(show, steps[i].body) + if LastHeard(steps, i) then attachments else []
  {
    var plain := AllSent(show, Build(steps));
    assert forall j :: 0 <= j < |steps| ==>
             plain[j].blocks == Own(show, steps[j].body) && (plain[j].assistant <==> steps[j].body.Assistant?);
    var k := |steps|;
    while k > 0 && steps[k - 1].body.Assistant?
      invariant 0 <= k <= |steps| && forall j :: k <= j < |steps| ==> steps[j].body.Assistant?
    {
      k := k - 1;
    }
    InjectAt(plain, k, attachments);
  }

  // ---- the history view ----

  /** History shows the message a user wrote: the settings block that a run put before it is gone,
      attachment placeholders stay (unless a rendered value held a `]`, when nothing is removed). */
  lemma {:induction false} HistoryShowsMessage(lower: string -> string, context: map<string, ContextBlock.Raw>,
                                               message: string, rest: seq<Block>)
    requires ContextBlock.Render(lower, context).Some? && !Strings.Blank(message)
    ensures var stored := [Text(ContextBlock.Compose(ContextBlock.Render(lower, context), message))] + rest;
            var settings := ContextBlock.Settings(lower, context);
            StripFirst(stored) == (if forall i :: 0 <= i < |settings| ==> ']' !in settings[i].value
                                   then [Text(message)] + rest else stored)
  {
    hide ContextBlock.Strip, ContextBlock.Render, ContextBlock.Compose, Strings.Blank, ContextBlock.Settings;
    ContextBlock.StripRoundTrip(lower, context, message);
    var stored := [Text(ContextBlock.Compose(ContextBlock.Render(lower, context), message))] + rest;
    assert stored[1..] == rest;
  }

  /** A content block as the mutable dictionary it is. */
  class BlockObject {
    var value: Block

    constructor (value: Block)
      ensures this.value == value
    {
      this.value := value;
    }
  }

  /** A payload: its blocks, and the two keys that users must not see. */
  class Payload {
    var content: seq<BlockObject>
    var actionPrompt: Option<string>
    var providerToolUseId: Option<string>

    ghost predicate Valid() reads this {
      forall i, j :: 0 <= i < j < |content| ==> content[i] != content[j]
    }

    ghost function Blocks(): (r: seq<Block>)
      reads this, content
      ensures |r| == |content| && forall i :: 0 <= i < |r| ==> r[i] == content[i].value
    {
      seq(|content|, i requires 0 <= i < |content| reads this, content => content[i].value)
    }

    constructor (content: seq<BlockObject>, actionPrompt: Option<string>, providerToolUseId: Option<string>)
      ensures this.content == content && this.actionPrompt == actionPrompt
          && this.providerToolUseId == providerToolUseId
    {
      this.content, this.actionPrompt, this.providerToolUseId := content, actionPrompt, providerToolUseId;
    }
  }

  /** Domain names and ids for provider ones; what is unknown stays. */
  datatype Domain = Domain(names: map<string, string>, ids: map<string, string>)

  function Translate(d: Domain, b: Block): Block {
    match b
    case ToolUse(id, name, input) =>
      ToolUse(if id in d.ids then d.ids[id] else id, if name in d.names then d.names[name] else name, input)
    case ToolOutput(id, output, isError) => ToolOutput(if id in d.ids then d.ids[id] else id, output, isError)
    case _ => b
  }

  /** The first text block without its leading settings block. */
  function StripFirst(blocks: seq<Block>): (r: seq<Block>)
    ensures |r| == |blocks|
  {
    if blocks == [] then []
    else if blocks[0].Text? then [Text(ContextBlock.Strip(blocks[0].text))] + blocks[1..]
    else [blocks[0]] + StripFirst(blocks[1..])
  }

  /** What a user sees of a step: a function of its visible content alone, so the hidden prompt cannot
      show through. */
  function View(d: Domain, isUser: bool, blocks: seq<Block>): (r: seq<Block>)
    ensures |r| == |blocks|
  {
    var stripped := if isUser then StripFirst(blocks) else blocks;
    seq(|stripped|, i requires 0 <= i < |stripped| => Translate(d, stripped[i]))
  }

  method DeepCopy(p: Payload) returns (copy: Payload)
    ensures fresh(copy) && fresh(copy.content) && copy.Valid()
    ensures copy.Blocks() == p.Blocks() && copy.actionPrompt == p.actionPrompt
        && copy.providerToolUseId == p.providerToolUseId
  {
    var content: seq<BlockObject> := [];
    for i := 0 to |p.content|
      invariant |content| == i && fresh(content)
      invariant forall j, k :: 0 <= j < k < i ==> content[j] != content[k]
      invariant forall j :: 0 <= j < i ==> content[j].value == p.content[j].value
    {
      var b := new BlockObject(p.content[i].value);
      content := content + [b];
    }
    copy := new Payload(content, p.actionPrompt, p.providerToolUseId);
  }

  lemma {:induction false} StripFirstAt(blocks: seq<Block>, i: nat)
    requires i <= |blocks| && forall j :: 0 <= j < i ==> !blocks[j].Text?
    requires i < |blocks| ==> blocks[i].Text?
    ensures StripFirst(blocks) == if i < |blocks| then blocks[i := Text(ContextBlock.Strip(blocks[i].text))] else blocks
  {
    hide ContextBlock.Strip;
    if blocks != [] && !blocks[0].Text? {
      var rest := blocks[1..];
      assert forall j :: 0 <= j < |rest| ==> rest[j] == blocks[j + 1];
      StripFirstAt(rest, i - 1);
      assert blocks == [blocks[0]] + rest;
      if i < |blocks| {
        var stripped := Text(ContextBlock.Strip(blocks[i].text));
        assert blocks[i := stripped] == [blocks[0]] + rest[i - 1 := stripped];
      }
    }
  }

  method StripLeadingContextBlock(copy: Payload)
    requires copy.Valid()
    modifies copy.content
    ensures copy.Blocks() == StripFirst(old(copy.Blocks()))
  {
    ghost var before := copy.Blocks();
    var i := 0;
    while i < |copy.content| && !copy.content[i].value.Text?
      invariant i <= |copy.content| && copy.Blocks() == before
      invariant forall j :: 0 <= j < i ==> !before[j].Text?
    {
      i := i + 1;
    }
    StripFirstAt(before, i);
    if i < |copy.content| {
      copy.content[i].value := Text(ContextBlock.Strip(copy.content[i].value.text));
      assert copy.Blocks() == before[i := Text(ContextBlock.Strip(before[i].text))];
    }
  }

  predicate IdShownAs(d: Domain, stored: string, shown: string) {
    if stored in d.ids then shown == d.ids[stored] else shown == stored
  }

  /** What a user sees, block by block: the first text of a user step without its settings block, other texts
      and everything a tool was given or gave back as stored, and the id of a call and of its result, and the
      name of the tool, in domain terms wherever these are known. */
  lemma {:induction false} ViewShows(d: Domain, isUser: bool, blocks: seq<Block>, i: nat)
    requires i < |blocks|
    ensures var seen := View(d, isUser, blocks)[i];
            match blocks[i]
            case Text(text) =>
              var first := isUser && forall j :: 0 <= j < i ==> !blocks[j].Text?;
              seen == Text(if first then ContextBlock.Strip(text) else text)
            case ToolUse(id, name, input) =>
              && seen.ToolUse? && seen.input == input && IdShownAs(d, id, seen.id)
              && (if name in d.names then seen.name == d.names[name] else seen.name == name)
            case ToolOutput(id, output, isError) =>
              seen.ToolOutput? && seen.output == output && seen.isError == isError && IdShownAs(d, id, seen.id)
            case Other(_) => seen == blocks[i]
  {
    hide ContextBlock.Strip, StripFirst;
    var stripped := if isUser then StripFirst(blocks) else blocks;
    assert View(d, isUser, blocks)[i] == Translate(d, stripped[i]);
    if isUser {
      var k := 0;
      while k < |blocks| && !blocks[k].Text?
        invariant k <= |blocks| && forall j :: 0 <= j < k ==> !blocks[j].Text?
      {
        k := k + 1;
      }
      StripFirstAt(blocks, k);
      assert stripped[i] == if i == k then Text(ContextBlock.Strip(blocks[k].text)) else blocks[i];
      assert i == k <==> blocks[i].Text? && forall j :: 0 <= j < i ==> !blocks[j].Text?;
    }
  }

  method TranslateBlocks(d: Domain, copy: Payload)
    requires copy.Valid()
    modifies copy.content
    ensures forall i :: 0 <= i < |copy.content| ==> copy.content[i].value == Translate(d, old(copy.content[i].value))
  {
    for i := 0 to |copy.content|
      invariant forall j :: 0 <= j < |copy.content| ==>
                  copy.content[j].value ==
                  if j < i then Translate(d, old(copy.content[j].value)) else old(copy.content[j].value)
    {
      copy.content[i].value := Translate(d, copy.content[i].value);
    }
  }

  /** `_normalize_payload`: works on a deep copy only, drops the two internal keys, strips the settings
      block of a user step and translates names and ids. */
  method NormalizePayload(d: Domain, isUser: bool, p: Payload) returns (view: Payload)
    ensures fresh(view) && fresh(view.content)
    ensures view.actionPrompt == None && view.providerToolUseId == None
    ensures view.Blocks() == View(d, isUser, p.Blocks())
  {
    hide Translate, StripFirst;
    view := DeepCopy(p);
    view.providerToolUseId := None;
    view.actionPrompt := None;
    assert view.Blocks() == p.Blocks();
    if isUser { StripLeadingContextBlock(view); }
    TranslateBlocks(d, view);
  }
}
