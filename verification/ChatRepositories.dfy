/** The repository objects: SQL statements over stored rows, and their in-memory twin. */
module ChatRepositories {
  import opened Wallet
  import opened Records
  import opened Repository
  import opened History

  /** The rows of one session; a session without an entry has none. */
  function RowsOf(chats: map<Id, Chat>, session: Id): Chat {
    if session in chats then chats[session] else Chat([], map[])
  }

  /** The tables `chat_steps` and `tool_calls`, by session. */
  class ChatRepository {
    var chats: map<Id, Chat>

    function Rows(session: Id): Chat reads this { RowsOf(chats, session) }

    constructor (chats: map<Id, Chat>)
      ensures this.chats == chats
    {
      this.chats := chats;
    }

    method AddStep(session: Id, turn: Id, body: Body)
      modifies this
      ensures chats == old(chats)[session := Repository.AddStep(old(Rows(session)), turn, body)]
    {
      var c := Rows(session);
      chats := chats[session := c.(steps := c.steps + [Step(turn, body)])];
    }

    method CreateToolCall(session: Id, id: Id, turn: Id, tool: string, args: string, provider: string)
      modifies this
      ensures chats == old(chats)[session := CreateCall(old(Rows(session)), id, turn, tool, args, provider)]
    {
      var c := Rows(session);
      chats := chats[session := c.(calls := c.calls[id := Call(turn, tool, args, provider, Pending, None)])];
    }

    method CompleteToolCall(session: Id, id: Id, status: Status, result: Option<string>) returns (transitioned: bool)
      modifies this
      ensures (Rows(session), transitioned) == CompleteCall(old(Rows(session)), id, status, result)
      ensures chats == if transitioned then old(chats)[session := Rows(session)] else old(chats)
    {
      var c := Rows(session);
      if id !in c.calls || !c.calls[id].status.Pending? { return false; }
      chats := chats[session := c.(calls := c.calls[id := c.calls[id].(status := status, result := result)])];
      return true;
    }

    /** SELECT DISTINCT message_step_id ... WHERE seq >= :anchor. */
    method TurnsFrom(session: Id, anchor: nat) returns (turns: set<Id>)
      requires anchor <= |Rows(session).steps|
      ensures turns == Turns(Rows(session).steps[anchor..])
    {
      var steps := Rows(session).steps;
      turns := {};
      for i := anchor to |steps|
        invariant turns == Turns(steps[anchor..i])
      {
        assert steps[anchor..i + 1] == steps[anchor..i] + [steps[i]];
        TurnsSnoc(steps[anchor..i], steps[i]);
        turns := turns + {steps[i].turn};
      }
      assert steps[anchor..|steps|] == steps[anchor..];
    }

    /** Three statements: find the anchor, delete the tool calls of the turns from there on, delete
        the steps. The result is the number of deleted steps. */
    method TruncateFromMessageStep(session: Id, turn: Id) returns (deleted: Option<nat>)
      modifies this
      ensures match Truncate(old(Rows(session)), turn)
              case None => deleted == None && chats == old(chats)
              case Some(c) =>
                && chats == old(chats)[session := c]
                && deleted == Some(|old(Rows(session)).steps| - |c.steps|) && deleted.value >= 1
    {
      var steps := Rows(session).steps;
      var anchor := 0;
      while anchor < |steps| && !(steps[anchor].turn == turn && steps[anchor].body.User?)
        invariant anchor <= |steps|
        invariant FirstIndex(steps, 0, IsUser(turn)) == FirstIndex(steps, anchor, IsUser(turn))
      {
        anchor := anchor + 1;
      }
      if anchor == |steps| { return None; }
      var gone := TurnsFrom(session, anchor);
      var calls := Rows(session).calls;
      var left := map id | id in calls && calls[id].turn !in gone :: calls[id];
      chats := chats[session := Chat(steps[..anchor], left)];
      return Some(|steps| - anchor);
    }

    /** SELECT ... WHERE message_step_id = :turn AND role = 'assistant' ORDER BY seq DESC LIMIT 1. */
    method LatestAssistant(session: Id, turn: Id) returns (r: Option<Step>)
      ensures var steps := Rows(session).steps;
              r == match LastIndex(steps, IsAssistant(turn)) { case Some(i) => Some(steps[i]) case None => None }
    {
      var steps := Rows(session).steps;
      var k := |steps|;
      assert steps[..k] == steps;
      while k > 0 && !(steps[k - 1].turn == turn && steps[k - 1].body.Assistant?)
        invariant 0 <= k <= |steps|
        invariant LastIndex(steps, IsAssistant(turn)) == LastIndex(steps[..k], IsAssistant(turn))
      {
        assert steps[..k][..k - 1] == steps[..k - 1];
        k := k - 1;
      }
      assert k > 0 ==> steps[..k][k - 1] == steps[k - 1];
      return if k > 0 then Some(steps[k - 1]) else None;
    }

    /** The assistant step after the result of a call, in `seq` order; the latest one of the turn when
        that result is missing. */
    method NextStepAfter(session: Id, turn: Id, call: Id) returns (r: Option<Step>)
      ensures r == Repository.NextStepAfter(Rows(session), turn, call)
    {
      var steps := Rows(session).steps;
      var i := 0;
      while i < |steps| && !(steps[i].turn == turn && steps[i].body.Tool? && steps[i].body.call == call)
        invariant i <= |steps|
        invariant FirstIndex(steps, 0, IsResult(turn, call)) == FirstIndex(steps, i, IsResult(turn, call))
      {
        i := i + 1;
      }
      if i == |steps| {
        r := LatestAssistant(session, turn);
        return;
      }
      var j := i + 1;
      while j < |steps| && !(steps[j].turn == turn && steps[j].body.Assistant?)
        invariant i < j <= |steps|
        invariant FirstIndex(steps, i + 1, IsAssistant(turn)) == FirstIndex(steps, j, IsAssistant(turn))
      {
        j := j + 1;
      }
      return if j < |steps| then Some(steps[j]) else None;
    }
  }

  /** A `ToolCall` object of the in-memory repository; its status and result are set in place. */
  class ToolCallRow {
    const turn: Id
    const tool: string
    const args: string
    const provider: string
    var status: Status
    var result: Option<string>

    function Value(): Call reads this { Call(turn, tool, args, provider, status, result) }

    constructor (turn: Id, tool: string, args: string, provider: string)
      ensures Value() == Call(turn, tool, args, provider, Pending, None)
    {
      this.turn, this.tool, this.args, this.provider := turn, tool, args, provider;
      status, result := Pending, None;
    }
  }

  /** The in-memory twin for a temporary chat: a list of steps and a dictionary of row objects. */
  class EphemeralChatRepository {
    var steps: seq<Step>
    var toolCalls: map<Id, ToolCallRow>

    /** The row objects. */
    ghost function Held(): set<ToolCallRow> reads this { set id | id in toolCalls :: toolCalls[id] }

    /** No row object is held under two ids. */
    ghost predicate Valid() reads this {
      forall i, j :: i in toolCalls && j in toolCalls && i != j ==> toolCalls[i] != toolCalls[j]
    }

    function Rows(): Chat reads this, Held() {
      Chat(steps, map id | id in toolCalls :: toolCalls[id].Value())
    }

    constructor (seed: seq<Step>)
      ensures Valid() && Rows() == Chat(seed, map[]) && Held() == {}
    {
      steps, toolCalls := seed, map[];
    }

    method AddStep(turn: Id, body: Body)
      requires Valid()
      modifies this
      ensures Valid() && toolCalls == old(toolCalls)
      ensures Rows() == Repository.AddStep(old(Rows()), turn, body)
    {
      steps := steps + [Step(turn, body)];
    }

    method CreateToolCall(id: Id, turn: Id, tool: string, args: string, provider: string)
      requires Valid()
      modifies this
      ensures Valid() && fresh(Held() - old(Held()))
      ensures Rows() == CreateCall(old(Rows()), id, turn, tool, args, provider)
    {
      ghost var before := Rows().calls;
      var row := new ToolCallRow(turn, tool, args, provider);
      toolCalls := toolCalls[id := row];
      assert Rows().calls == before[id := row.Value()];
    }

    method CompleteToolCall(id: Id, status: Status, result: Option<string>) returns (transitioned: bool)
      requires Valid()
      modifies Held()
      ensures Valid() && toolCalls == old(toolCalls) && steps == old(steps)
      ensures (Rows(), transitioned) == CompleteCall(old(Rows()), id, status, result)
    {
      if id !in toolCalls || !toolCalls[id].status.Pending? { return false; }
      var row := toolCalls[id];
      row.status := status;
      row.result := result;
      assert Rows().calls == old(Rows()).calls[id := old(Rows()).calls[id].(status := status, result := result)];
      return true;
    }

    /** A temporary chat cannot be edited and has no continuation to replay. */
    method TruncateFromMessageStep(turn: Id) returns (deleted: Option<nat>)
      ensures deleted == None
    {
      return None;
    }

    method NextStepAfter(turn: Id, call: Id) returns (r: Option<Step>)
      ensures r == None
    {
      return None;
    }
  }
}
