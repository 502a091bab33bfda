/** The rows that the replies of a generation leave, and the response made from the last of them. */
module Replies {
  import opened Wallet
  import opened Records
  import opened Repository
  import opened Engine
  import opened History
  import opened Money
  import opened Growth
  import opened TurnSafety
  import opened Conversation
  import opened Runs
  import opened Responses
  import Policy

  /** A stored reply that ends its turn: not cut off, and asking for no tool. */
  predicate IsAnswer(s: Step) { s.body.Assistant? && !s.body.cut && ToolUses(s.body.content) == [] }

  ghost predicate HasAnswer(c: Chat, turn: Id) {
    exists i :: 0 <= i < |c.steps| && IsAnswer(c.steps[i]) && c.steps[i].turn == turn
  }

  /** Tool steps and calls were added, nothing was changed. */
  ghost predicate Adds(c: Chat, d: Chat) {
    && c.steps <= d.steps
    && (forall i :: |c.steps| <= i < |d.steps| ==> d.steps[i].body.Tool?)
    && (forall id :: id in c.calls ==> id in d.calls && d.calls[id] == c.calls[id])
  }

  ghost predicate Below(u: Unit) { forall id :: id in u.work.chat.calls ==> id < u.next }

  /** The tool_use blocks that the client has to execute, in block order. */
  function ClientUses(w: World, uses: seq<Block>): seq<Block>
    requires forall b :: b in uses ==> b.ToolUse?
  {
    if uses == [] then []
    else
      var last := uses[|uses| - 1];
      ClientUses(w, uses[..|uses| - 1]) + if w.kind(last.name).Client? then [last] else []
  }

  /** A call handed over for a block: its row holds the block's provider id, name and arguments. */
  predicate Fits(c: Chat, client: ClientCall, use: Block) {
    && use.ToolUse? && client.call in c.calls
    && c.calls[client.call].provider == use.id
    && c.calls[client.call].tool == use.name == client.tool
    && c.calls[client.call].args == client.args
  }

  /** The calls handed over are those of the blocks, in the same order. */
  ghost predicate Hands(c: Chat, clients: seq<ClientCall>, uses: seq<Block>) {
    |clients| == |uses| && forall i :: 0 <= i < |clients| ==> Fits(c, clients[i], uses[i])
  }

  /** `q` is `p` after one block. */
  ghost predicate HandedOn(w: World, p: Progress, block: Block, q: Progress)
    requires block.ToolUse?
  {
    && Below(q.unit) && Adds(p.unit.work.chat, q.unit.work.chat)
    && if w.kind(block.name).Client?
       then exists last :: q.clients == p.clients + [last] && Fits(q.unit.work.chat, last, block)
       else q.clients == p.clients
  }

  /** One more call, pending or answered. */
  ghost predicate Opened(c: Chat, d: Chat, id: Id) { Adds(c, d) && d.calls.Keys == c.calls.Keys + {id} }

  lemma {:induction false} PersistOpened(c: Chat, p: Progress, id: Id, x: Execution)
    requires id !in c.calls && Opened(c, p.unit.work.chat, id)
    ensures var q := Persist(p, id, x);
            Opened(c, q.unit.work.chat, id) && q.clients == p.clients && q.unit.next == p.unit.next
  {
  }

  lemma {:induction false} ImageOpened(w: World, t: Turn, c: Chat, p: Progress, id: Id, provider: string)
    requires p.unit.log != [] && id !in c.calls && Opened(c, p.unit.work.chat, id)
    ensures var f := ExecuteImage(w, t, p, id, provider);
            f.More? ==> Opened(c, f.p.unit.work.chat, id) && f.p.clients == p.clients && f.p.unit.next == p.unit.next
  {
    hide Persist, Consume, Opened;
    match w.picture(|p.unit.sent|, provider)
    case PolicyRefusal => PersistOpened(c, p, id, Refused("content_policy"));
    case GenerationFailed => PersistOpened(c, p, id, Refused("image_generation_failed"));
    case Bytes =>
      var a := p.unit.work.account;
      var purse := Consume(a.purse, Uuid(id), w.cost).0;
      PersistOpened(c, p.(unit := SetAccount(p.unit, a.(purse := purse, images := a.images + [ImageRow(t.id, id)])),
                          images := p.images + [id]), id, Done("image"));
  }

  lemma {:induction false} BlockHands(w: World, t: Turn, p: Progress, block: Block)
    requires Below(p.unit) && p.unit.log != [] && block.ToolUse?
    ensures HandleBlock(w, t, p, block).More? ==> HandedOn(w, p, block, HandleBlock(w, t, p, block).p)
  {
    hide Persist, ExecuteImage, Adds;
    var checked := w.validate(block.name, block.input);
    var args := if checked.Some? then checked.value else block.input;
    var (c, id) := (p.unit.work.chat, p.unit.next);
    var q := p.(unit := OpenCall(p.unit, t.id, block.name, args, block.id));
    assert Opened(c, q.unit.work.chat, id) by { CreatedOpened(c, id, t.id, block.name, args, block.id); }
    match w.kind(block.name)
    case Image => ImageOpened(w, t, c, q, id, block.id);
    case Client =>
      var client := ClientCall(id, block.name, args);
      assert Fits(q.unit.work.chat, client, block);
      assert HandleBlock(w, t, p, block).More? ==> HandleBlock(w, t, p, block).p.clients == p.clients + [client];
    case _ => PersistOpened(c, q, id, w.execute(id, block.name, args));
  }

  lemma {:induction false} CreatedOpened(c: Chat, id: Id, turn: Id, tool: string, args: string, provider: string)
    requires id !in c.calls
    ensures Opened(c, CreateCall(c, id, turn, tool, args, provider), id)
  {
  }

  lemma {:induction false} AddsTrans(c: Chat, d: Chat, e: Chat)
    requires Adds(c, d) && Adds(d, e)
    ensures Adds(c, e)
  {
  }

  lemma {:induction false} HandsOn(w: World, p: Progress, done: seq<Block>, block: Block, q: Progress)
    requires (forall b :: b in done ==> b.ToolUse?) && block.ToolUse? && HandedOn(w, p, block, q)
    requires Hands(p.unit.work.chat, p.clients, ClientUses(w, done))
    ensures Hands(q.unit.work.chat, q.clients, ClientUses(w, done + [block]))
  {
    var (c, d) := (p.unit.work.chat, q.unit.work.chat);
    assert (done + [block])[..|done|] == done;
    assert forall i :: 0 <= i < |p.clients| ==> Fits(d, p.clients[i], ClientUses(w, done)[i]);
  }

  lemma {:induction false} BlocksHand(w: World, t: Turn, p: Progress, done: seq<Block>, uses: seq<Block>)
    requires Below(p.unit) && p.unit.log != []
    requires forall b :: b in done + uses ==> b.ToolUse?
    requires (forall b :: b in done ==> b.ToolUse?) && (forall b :: b in uses ==> b.ToolUse?)
    requires Hands(p.unit.work.chat, p.clients, ClientUses(w, done))
    ensures HandleBlocks(w, t, p, uses).More? ==>
              var q := HandleBlocks(w, t, p, uses).p;
              && Below(q.unit) && Adds(p.unit.work.chat, q.unit.work.chat)
              && Hands(q.unit.work.chat, q.clients, ClientUses(w, done + uses))
    decreases |uses|
  {
    hide HandleBlock, Below, Hands, ClientUses;
    if uses == [] {
      assert done + uses == done;
    } else {
      BlockHands(w, t, p, uses[0]);
      BlockFrame(w, t, p, uses[0]);
      match HandleBlock(w, t, p, uses[0]) {
        case Halt(_, _) =>
        case More(q) =>
          HandsOn(w, p, done, uses[0], q);
          assert done + [uses[0]] + uses[1..] == done + uses;
          BlocksHand(w, t, q, done + [uses[0]], uses[1..]);
          if HandleBlocks(w, t, q, uses[1..]).More? {
            AddsTrans(p.unit.work.chat, q.unit.work.chat, HandleBlocks(w, t, q, uses[1..]).p.unit.work.chat);
          }
      }
    }
  }

  // ---- rounds ----

  /** The text a response carries. */
  function TextIn(out: Outcome): Option<string> {
    match out
    case AssistantMessageOut(text, _, _) => Some(text)
    case MaxTokensOut(text, _, _) => Some(text)
    case ToolCallOut(text, _, _, _) => Some(text)
    case _ => None
  }

  /** Step `m` is the last reply of the turn, and the response was made from it. */
  ghost predicate ClosedBy(w: World, turn: Id, c: Chat, m: int, out: Outcome) {
    && 0 <= m < |c.steps| && c.steps[m].turn == turn && c.steps[m].body.Assistant?
    && (forall i :: m < i < |c.steps| ==> c.steps[i].body.Tool?)
    && TextIn(out) == Some(TextOf(c.steps[m].body.content))
    && c.steps[m].body.cut == out.MaxTokensOut?
    && (out.AssistantMessageOut? && WorldOk(w) ==> IsAnswer(c.steps[m]))
    && (out.ToolCallOut? ==> Hands(c, out.calls, ClientUses(w, ToolUses(c.steps[m].body.content))))
  }

  /** The reply of a round is stored behind the history it was given; only tool steps follow it. */
  ghost predicate RoundSaid(w: World, t: Turn, p: Progress, f: Flow) {
    var c := p.unit.work.chat;
    var d := f.p.unit.work.chat;
    var n := |c.steps|;
    var reply := w.model(|p.unit.sent|, Build(c.steps));
    f.More? || TextIn(f.out).Some? ==>
      && reply.Reply? && c.steps <= d.steps && n < |d.steps|
      && d.steps[n].turn == t.id && d.steps[n].body.Assistant? && d.steps[n].body.content == reply.content
      && if f.More? then Below(f.p.unit) else ClosedBy(w, t.id, d, n, f.out)
  }

  lemma {:induction false} RoundReplies(w: World, t: Turn, p: Progress)
    requires Below(p.unit)
    ensures RoundSaid(w, t, p, Round(w, t, p))
  {
    hide HandleToolUse, Finalize, Fits, ClientUses, ReplyOk;
    var u := Commit(p.unit);
    var q := p.(unit := u.(sent := u.sent + [u.work.chat]));
    var reply := w.model(|p.unit.sent|, Build(p.unit.work.chat.steps));
    if reply.Reply? && !reply.stop.MaxTokens? {
      if reply.stop.ToolUseStop? && ToolUses(reply.content) != [] {
        ToolUseReplies(w, t, q, reply.content);
      } else {
        FinalReplies(w, t, q, reply);
      }
    }
  }

  lemma {:induction false} ToolUseReplies(w: World, t: Turn, q: Progress, content: seq<Block>)
    requires Below(q.unit) && q.unit.log != []
    ensures var f := HandleToolUse(w, t, q, content);
            var n := |q.unit.work.chat.steps|;
            f.More? ==>
              && Below(f.p.unit)
              && AddStep(q.unit.work.chat, t.id, Assistant(content, false)).steps <= f.p.unit.work.chat.steps
              && (forall i :: n < i < |f.p.unit.work.chat.steps| ==> f.p.unit.work.chat.steps[i].body.Tool?)
              && Hands(f.p.unit.work.chat, f.p.clients, ClientUses(w, ToolUses(content)))
    ensures HandleToolUse(w, t, q, content).Halt? ==> TextIn(HandleToolUse(w, t, q, content).out).None?
  {
    hide HandleBlocks, Fits;
    var p := q.(unit := Write(q.unit, t.id, Assistant(content, false)), clients := []);
    assert [] + ToolUses(content) == ToolUses(content);
    BlocksHand(w, t, p, [], ToolUses(content));
    BlocksSilent(w, t, p, ToolUses(content));
  }

  lemma {:induction false} BlocksSilent(w: World, t: Turn, p: Progress, uses: seq<Block>)
    requires p.unit.log != [] && forall b :: b in uses ==> b.ToolUse?
    ensures HandleBlocks(w, t, p, uses).Halt? ==> TextIn(HandleBlocks(w, t, p, uses).out).None?
    decreases |uses|
  {
    hide Persist, Consume, Rollback;
    if uses != [] {
      BlockFrame(w, t, p, uses[0]);
      match HandleBlock(w, t, p, uses[0]) {
        case Halt(_, _) =>
        case More(q) => BlocksSilent(w, t, q, uses[1..]);
      }
    }
  }

  lemma {:induction false} FinalReplies(w: World, t: Turn, q: Progress, reply: Reply)
    requires q.unit.log != [] && reply.Reply? && !reply.stop.MaxTokens?
    requires reply.stop.ToolUseStop? ==> ToolUses(reply.content) == []
    ensures var f := Finalize(t, q, reply.content);
            f.Halt? && (TextIn(f.out).Some? ==>
              && f.out.AssistantMessageOut? && f.out.text == TextOf(reply.content)
              && f.p.unit.work.chat == AddStep(q.unit.work.chat, t.id, Assistant(reply.content, false)))
    ensures ReplyOk(reply) ==> ToolUses(reply.content) == []
  {
    hide Consume, DistinctIds;
    if ToolUses(reply.content) != [] {
      var b := ToolUses(reply.content)[0];
      assert b in ToolUses(reply.content) && b.id in ToolIds(reply.content);
    }
  }

  /** A generation's first reply stands right behind the history it began with, and its response is made
      from its last one; with a single model call these are the same. */
  ghost predicate Spoken(w: World, turn: Id, c: Chat, sent: nat, u: Unit, out: Outcome) {
    var d := u.work.chat;
    var n := |c.steps|;
    var reply := w.model(sent, Build(c.steps));
    TextIn(out).Some? ==>
      && reply.Reply? && c.steps <= d.steps && n < |d.steps|
      && d.steps[n].turn == turn && d.steps[n].body.Assistant? && d.steps[n].body.content == reply.content
      && (exists m :: n <= m && ClosedBy(w, turn, d, m, out))
      && sent < |u.sent| && (|u.sent| == sent + 1 ==> TextIn(out) == Some(TextOf(reply.content)))
  }

  lemma {:induction false} LoopReplies(w: World, t: Turn, p: Progress, n: nat)
    requires Below(p.unit)
    ensures var (q, out) := Loop(w, t, p, n); Spoken(w, t.id, p.unit.work.chat, |p.unit.sent|, q.unit, out)
    decreases n
  {
    hide Round, Below, ClosedBy;
    if n > 0 {
      RoundReplies(w, t, p);
      RoundSends(w, t, p);
      match Round(w, t, p) {
        case Halt(q, out) =>
          if TextIn(out).Some? { ClosedText(w, t.id, q.unit.work.chat, |p.unit.work.chat.steps|, out); }
        case More(q) => LoopReplies(w, t, q, n - 1);
      }
    }
  }

  lemma {:induction false} ClosedText(w: World, turn: Id, c: Chat, m: int, out: Outcome)
    requires ClosedBy(w, turn, c, m, out)
    ensures 0 <= m < |c.steps| && c.steps[m].body.Assistant? && TextIn(out) == Some(TextOf(c.steps[m].body.content))
  {
  }

  lemma {:induction false} ContinueReplies(w: World, turn: Id, mode: Policy.Mode, hasProject: bool, u: Unit)
    requires Starts(u) && Below(u)
    ensures var (p, out) := Continue(w, turn, mode, hasProject, u); Spoken(w, turn, u.work.chat, 0, p.unit, out)
  {
    hide Loop, Spoken;
    var t := Turn(turn, mode, Policy.BillingPlan(mode, u.work.account.PolicyState()), hasProject);
    var (p, out) := Continue(w, turn, mode, hasProject, u);
    if TextIn(out).Some? {
      LoopReplies(w, t, Progress(u, [], [], []), w.rounds + 1);
    } else {
      Unspoken(w, turn, u.work.chat, 0, p.unit, out);
    }
  }

  lemma {:induction false} Unspoken(w: World, turn: Id, c: Chat, sent: nat, u: Unit, out: Outcome)
    requires TextIn(out).None?
    ensures Spoken(w, turn, c, sent, u, out)
  {
  }

  // ---- requests ----

  /** The same of a whole request, seen in the state it commits last. */
  lemma {:induction false} RequestReplies(cost: int, w: World, db: Database, r: Request)
    requires DbInv(cost, db) && w.cost == cost && (r.Run? || r.ToolResult?) && BaseOf(w, db, r).Some?
    requires TextIn(Exec(w, db, r).1.out).Some?
    ensures var b := BaseOf(w, db, r).value;
            var trace := Exec(w, db, r).1;
            var reply := w.model(0, Build(b.store.chat.steps));
            && trace.log != [] && reply.Reply?
            && var d := trace.log[|trace.log| - 1].chat;
            && |b.store.chat.steps| < |d.steps|
            && d.steps[|b.store.chat.steps|].turn == b.turn
            && d.steps[|b.store.chat.steps|].body.Assistant?
            && d.steps[|b.store.chat.steps|].body.content == reply.content
            && (exists m :: |b.store.chat.steps| <= m && ClosedBy(w, b.turn, d, m, trace.out))
            && (|trace.sent| == 1 ==> TextIn(trace.out) == Some(TextOf(reply.content)))
  {
    hide Continue, ClosedBy, Exec, BaseOf, DbInv;
    var b := BaseOf(w, db, r).value;
    GenerationIs(w, db, r);
    BaseBelow(cost, w, db, r);
    var s := Place(db, r).1;
    ContinueReplies(w, b.turn, s.mode, s.hasProject, Opening(b));
  }

  lemma {:induction false} BaseBelow(cost: int, w: World, db: Database, r: Request)
    requires DbInv(cost, db) && w.cost == cost && (r.Run? || r.ToolResult?) && BaseOf(w, db, r).Some?
    ensures Below(Opening(BaseOf(w, db, r).value)) && (r.ToolResult? ==> r.session in db.sessions)
  {
    hide AccountInv, ChatInv, ApplyResults, PendingClient, NextStepAfter, Resolve, CutAt;
    if r.ToolResult? {
      var c := db.sessions[r.session].chat;
      ApplyKeeps(c, db.account.initiated, db.next, r.items);
      CallsBelow(ApplyResults(c, r.items), db.account.initiated, db.next);
    } else {
      var (id, s, isNew) := Target(db, r);
      if !isNew {
        CallsBelow(s.chat, db.account.initiated, db.next);
        if r.request.edit.Some? { CutCalls(s.chat, r.request.edit.value); }
      }
    }
  }

  lemma {:induction false} CutCalls(c: Chat, turn: Id)
    ensures Truncate(c, turn).Some? ==> Truncate(c, turn).value.calls.Keys <= c.calls.Keys
  {
  }
}
