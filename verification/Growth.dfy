/** What a generation adds to the rows, and what its response says about it. */
module Growth {
  import opened Wallet
  import opened Records
  import opened Repository
  import opened Engine
  import opened History
  import Policy

  /** The state a generation starts from, its first fresh id, and the turn it works for. */
  datatype Base = Base(store: Store, next: Id, turn: Id)

  /** Account rows are only added; new tool calls carry fresh ids. */
  ghost predicate AccountGrew(a: Account, b: Account, n: Id) {
    && a.purse.ledger <= b.purse.ledger
    && a.images <= b.images
    && a.finals <= b.finals
    && (a.trialUsed ==> b.trialUsed)
    && (forall k :: k in a.initiated ==> k in b.initiated && b.initiated[k] == a.initiated[k])
    && (forall k :: k in b.initiated ==> k in a.initiated || k >= n)
  }

  /** Only replies and tool results of one turn are appended; the tool calls that were there stay as
      they were. */
  ghost predicate ChatGrew(c: Chat, d: Chat, n: Id, turn: Id) {
    && c.steps <= d.steps
    && (forall i :: |c.steps| <= i < |d.steps| ==> d.steps[i].turn == turn && !d.steps[i].body.User?)
    && (forall id :: id in c.calls ==> id in d.calls && d.calls[id] == c.calls[id])
    && (forall id :: id in d.calls && id !in c.calls ==> id >= n && d.calls[id].turn == turn && |c.steps| < |d.steps|)
  }

  ghost predicate StoreGrew(b: Base, s: Store, next: Id) {
    && AccountGrew(b.store.account, s.account, b.next)
    && ChatGrew(b.store.chat, s.chat, b.next, b.turn)
    && forall id :: id in s.chat.calls ==> id < next
  }

  /** The ids the starting state knows are older than its next fresh id. */
  ghost predicate Grounded(b: Base) {
    && (forall id :: id in b.store.chat.calls ==> id < b.next)
    && (forall k :: k in b.store.account.initiated ==> k < b.next)
  }

  predicate NewPending(b: Base, c: Chat, id: Id) { IsPending(c, id) && id !in b.store.chat.calls }

  /** A history sent to the model: committed before the call, and no call of this generation waits. */
  ghost predicate SentOk(b: Base, log: seq<Store>, c: Chat) {
    && (exists k :: 0 <= k < |log| && log[k].chat == c)
    && (forall id :: !NewPending(b, c, id))
  }

  ghost predicate Kept(b: Base, u: Unit) {
    && b.next <= u.next
    && StoreGrew(b, u.work, u.next)
    && (forall i :: 0 <= i < |u.log| ==> StoreGrew(b, u.log[i], u.next))
    && (forall i :: 0 <= i < |u.sent| ==> SentOk(b, u.log, u.sent[i]))
  }

  /** The tool steps among `steps`, as the response lists them. */
  function ToolsOf(steps: seq<Step>): seq<ServerTool> {
    if steps == [] then []
    else
      var last := steps[|steps| - 1].body;
      ToolsOf(steps[..|steps| - 1]) +
      if last.Tool? then [ServerTool(last.call, last.tool, if last.error.Some? then Errored else Completed)] else []
  }

  function Rows(turn: Id, images: seq<Id>): (r: seq<ImageRow>)
    ensures |r| == |images|
  {
    seq(|images|, i requires 0 <= i < |images| => ImageRow(turn, images[i]))
  }

  function ClientIds(clients: seq<ClientCall>): set<Id> { set c <- clients :: c.call }

  /** The lists name exactly the tool steps and image rows added so far; the calls that wait are
      those handed to the client and the ones in `busy`. */
  ghost predicate Lists(b: Base, s: Store, tools: seq<ServerTool>, images: seq<Id>, clients: seq<ClientCall>,
                        busy: set<Id>) {
    && |b.store.chat.steps| <= |s.chat.steps|
    && tools == ToolsOf(s.chat.steps[|b.store.chat.steps|..])
    && s.account.images == b.store.account.images + Rows(b.turn, images)
    && (forall id :: NewPending(b, s.chat, id) <==> id in ClientIds(clients) + busy)
    && (forall i :: 0 <= i < |clients| ==>
          && clients[i].call in s.chat.calls
          && s.chat.calls[clients[i].call].tool == clients[i].tool
          && s.chat.calls[clients[i].call].args == clients[i].args)
  }

  ghost predicate Tallied(b: Base, p: Progress, busy: set<Id>) {
    Lists(b, p.unit.work, p.tools, p.images, p.clients, busy)
  }

  /** What a response says is what the last commit holds. */
  ghost predicate Agrees(b: Base, log: seq<Store>, out: Outcome) {
    match out
    case AssistantMessageOut(text, tools, images) =>
      log != [] && Closed(b, log[|log| - 1], text, tools, images, false)
    case MaxTokensOut(text, tools, images) =>
      log != [] && Closed(b, log[|log| - 1], text, tools, images, true)
    case ToolCallOut(_, calls, tools, images) =>
      log != [] && calls != [] && Lists(b, log[|log| - 1], tools, images, calls, {})
    case _ => true
  }

  /** The lists are complete, no call waits, and the text is that of the step stored last. */
  ghost predicate Closed(b: Base, s: Store, text: string, tools: seq<ServerTool>, images: seq<Id>, cut: bool) {
    && Lists(b, s, tools, images, [], {})
    && |b.store.chat.steps| < |s.chat.steps|
    && var last := s.chat.steps[|s.chat.steps| - 1].body;
       last.Assistant? && last.cut == cut && text == TextOf(last.content)
  }

  /** After a normal answer nothing is left to commit. */
  predicate Saved(p: Progress, out: Outcome) {
    out.AssistantMessageOut? || out.MaxTokensOut? || out.ToolCallOut? ==>
      p.unit.log != [] && p.unit.log[|p.unit.log| - 1] == p.unit.work
  }

  ghost predicate FlowGrew(b: Base, f: Flow, busy: set<Id>) {
    && Kept(b, f.p.unit)
    && match f
       case More(p) => Tallied(b, p, busy)
       case Halt(p, out) => Agrees(b, p.unit.log, out) && Saved(p, out)
  }

  lemma {:induction false} ToolsSnoc(steps: seq<Step>, s: Step)
    ensures ToolsOf(steps + [s]) ==
            ToolsOf(steps) +
            if s.body.Tool? then [ServerTool(s.body.call, s.body.tool, if s.body.error.Some? then Errored else Completed)]
            else []
  {
    assert (steps + [s])[..|steps|] == steps;
  }

  lemma {:induction false} StepGrew(b: Base, s: Store, next: Id, body: Body)
    requires StoreGrew(b, s, next) && !body.User?
    ensures StoreGrew(b, s.(chat := AddStep(s.chat, b.turn, body)), next)
  {
  }

  lemma {:induction false} CommitGrew(b: Base, u: Unit)
    requires Kept(b, u)
    ensures Kept(b, Commit(u))
  {
    hide StoreGrew;
    var v := Commit(u);
    forall i | 0 <= i < |v.sent| ensures SentOk(b, v.log, v.sent[i]) {
      var k :| 0 <= k < |u.log| && u.log[k].chat == u.sent[i];
      assert v.log[k].chat == v.sent[i];
    }
  }

  lemma {:induction false} RollbackGrew(b: Base, u: Unit)
    requires Kept(b, u) && u.log != []
    ensures Kept(b, Rollback(u))
  {
    hide AccountGrew, ChatGrew;
  }

  /** A reply of the turn. */
  lemma {:induction false} WriteGrew(b: Base, p: Progress, body: Body, busy: set<Id>)
    requires Kept(b, p.unit) && Tallied(b, p, busy) && body.Assistant?
    ensures var q := p.(unit := Write(p.unit, b.turn, body)); Kept(b, q.unit) && Tallied(b, q, busy)
  {
    hide StoreGrew, SentOk;
    var n := |b.store.chat.steps|;
    var c := p.unit.work.chat;
    StepGrew(b, p.unit.work, p.unit.next, body);
    ToolsSnoc(c.steps[n..], Step(b.turn, body));
    var d := AddStep(c, b.turn, body);
    assert d.steps[n..] == c.steps[n..] + [Step(b.turn, body)];
    assert forall id :: IsPending(d, id) == IsPending(c, id);
  }

  lemma {:induction false} OpenKept(b: Base, u: Unit, tool: string, args: string, provider: string)
    requires Kept(b, u) && Grounded(b) && |b.store.chat.steps| < |u.work.chat.steps|
    ensures Kept(b, OpenCall(u, b.turn, tool, args, provider))
  {
    hide SentOk;
    var v := OpenCall(u, b.turn, tool, args, provider);
    assert StoreGrew(b, v.work, v.next);
    hide AccountGrew, ChatGrew;
    assert forall i :: 0 <= i < |v.log| ==> StoreGrew(b, v.log[i], v.next);
  }

  lemma {:induction false} OpenTallied(b: Base, p: Progress, tool: string, args: string, provider: string)
    requires Kept(b, p.unit) && Tallied(b, p, {}) && Grounded(b)
    ensures Tallied(b, p.(unit := OpenCall(p.unit, b.turn, tool, args, provider)), {p.unit.next})
  {
    hide AccountGrew, ChatGrew, SentOk, ToolsOf;
    var q := p.(unit := OpenCall(p.unit, b.turn, tool, args, provider));
    var c, d := p.unit.work.chat, q.unit.work.chat;
    assert forall id :: NewPending(b, d, id) <==> NewPending(b, c, id) || id == p.unit.next;
    assert d.steps == c.steps && q.unit.work.account.images == p.unit.work.account.images;
  }

  lemma {:induction false} PersistKept(b: Base, p: Progress, id: Id, x: Execution)
    requires Kept(b, p.unit) && id in p.unit.work.chat.calls && NewPending(b, p.unit.work.chat, id)
    ensures Kept(b, Persist(p, id, x).unit)
  {
    hide SentOk, AccountGrew;
    var q := Persist(p, id, x);
    assert StoreGrew(b, q.unit.work, q.unit.next);
  }

  lemma {:induction false} PersistGrew(b: Base, p: Progress, id: Id, x: Execution)
    requires Kept(b, p.unit) && Tallied(b, p, {id}) && id !in ClientIds(p.clients)
    requires id in p.unit.work.chat.calls
    ensures Kept(b, Persist(p, id, x).unit) && Tallied(b, Persist(p, id, x), {})
    ensures Persist(p, id, x).clients == p.clients
  {
    hide Kept, ToolsOf;
    assert NewPending(b, p.unit.work.chat, id);
    PersistKept(b, p, id, x);
    var q := Persist(p, id, x);
    var c, d := p.unit.work.chat, q.unit.work.chat;
    var n := |b.store.chat.steps|;
    var s := d.steps[|c.steps|];
    ToolsSnoc(c.steps[n..], s);
    assert d.steps[n..] == c.steps[n..] + [s];
    assert forall k :: IsPending(d, k) <==> IsPending(c, k) && k != id;
  }

  lemma {:induction false} AccountStepGrew(b: Base, p: Progress, a: Account, images: seq<Id>, busy: set<Id>)
    requires Kept(b, p.unit) && Tallied(b, p, busy)
    requires AccountGrew(b.store.account, a, b.next)
    requires a.images == b.store.account.images + Rows(b.turn, images)
    ensures var q := p.(unit := SetAccount(p.unit, a), images := images); Kept(b, q.unit) && Tallied(b, q, busy)
  {
    hide AccountGrew, ChatGrew;
  }

  lemma {:induction false} ConsumeGrows(p: Purse, key: Wallet.Key, amount: int)
    ensures p.ledger <= Consume(p, key, amount).0.ledger
  {
  }

  lemma {:induction false} AccountGrewOn(a: Account, b: Account, n: Id, purse: Purse, images: seq<ImageRow>,
                                         finals: seq<Final>, trialUsed: bool)
    requires AccountGrew(a, b, n) && b.purse.ledger <= purse.ledger && b.images <= images && b.finals <= finals
    requires b.trialUsed ==> trialUsed
    ensures AccountGrew(a, b.(purse := purse, images := images, finals := finals, trialUsed := trialUsed), n)
  {
  }

  lemma {:induction false} ExecuteImageGrew(w: World, t: Turn, b: Base, p: Progress, id: Id, provider: string)
    requires Kept(b, p.unit) && Tallied(b, p, {id}) && id !in ClientIds(p.clients)
    requires p.unit.log != [] && b.turn == t.id && id in p.unit.work.chat.calls
    ensures FlowGrew(b, ExecuteImage(w, t, p, id, provider), {})
  {
    hide AccountGrew, ChatGrew, Persist, Tallied, Consume;
    match w.picture(|p.unit.sent|, provider)
    case PolicyRefusal => PersistGrew(b, p, id, Refused("content_policy"));
    case GenerationFailed => PersistGrew(b, p, id, Refused("image_generation_failed"));
    case Bytes =>
      var a := p.unit.work.account;
      var (purse, v) := Consume(a.purse, Uuid(id), w.cost);
      ConsumeGrows(a.purse, Uuid(id), w.cost);
      AccountGrewOn(b.store.account, a, b.next, purse, a.images, a.finals, a.trialUsed);
      if v.Insufficient? {
        RollbackGrew(b, SetAccount(p.unit, a.(purse := purse)));
      } else if !v.Conflict? {
        AccountGrewOn(b.store.account, a, b.next, purse, a.images + [ImageRow(t.id, id)], a.finals, a.trialUsed);
        var c := a.(purse := purse, images := a.images + [ImageRow(t.id, id)]);
        var images := p.images + [id];
        assert c.images == b.store.account.images + Rows(b.turn, images) by { RowsSnoc(b, p, {id}, id); }
        AccountStepGrew(b, p, c, images, {id});
        PersistGrew(b, p.(unit := SetAccount(p.unit, c), images := images), id, Done("image"));
      }
  }

  lemma {:induction false} RowsSnoc(b: Base, p: Progress, busy: set<Id>, id: Id)
    requires Tallied(b, p, busy)
    ensures p.unit.work.account.images + [ImageRow(b.turn, id)] ==
            b.store.account.images + Rows(b.turn, p.images + [id])
  {
  }

  lemma {:induction false} HandleBlockGrew(w: World, t: Turn, b: Base, p: Progress, block: Block)
    requires Kept(b, p.unit) && Tallied(b, p, {}) && Grounded(b)
    requires block.ToolUse? && p.unit.log != [] && b.turn == t.id && |b.store.chat.steps| < |p.unit.work.chat.steps|
    ensures FlowGrew(b, HandleBlock(w, t, p, block), {})
  {
    hide ExecuteImage, Persist, StoreGrew, SentOk;
    var kind := w.kind(block.name);
    var checked := w.validate(block.name, block.input);
    if (kind.Site? && !t.hasProject) || (checked.None? && !kind.Quiz?) {
    } else {
      var args := if checked.Some? then checked.value else block.input;
      var id := p.unit.next;
      var q := p.(unit := OpenCall(p.unit, t.id, block.name, args, block.id));
      OpenKept(b, p.unit, block.name, args, block.id);
      OpenTallied(b, p, block.name, args, block.id);
      assert id !in ClientIds(p.clients) by { ClientsOld(b, p); }
      match kind {
        case Image => ExecuteImageGrew(w, t, b, q, id, block.id);
        case Client =>
          if !p.unit.temporary { HandOffGrew(b, q, id); }
        case _ => PersistGrew(b, q, id, w.execute(id, block.name, args));
      }
    }
  }

  lemma {:induction false} ClientsOld(b: Base, p: Progress)
    requires Kept(b, p.unit) && Tallied(b, p, {})
    ensures p.unit.next !in ClientIds(p.clients)
  {
    hide AccountGrew, ChatGrew;
    assert p.unit.next !in p.unit.work.chat.calls;
    assert !NewPending(b, p.unit.work.chat, p.unit.next);
  }

  lemma {:induction false} HandOffGrew(b: Base, p: Progress, id: Id)
    requires Tallied(b, p, {id})
    ensures id in p.unit.work.chat.calls
    ensures var call := p.unit.work.chat.calls[id];
            Tallied(b, p.(clients := p.clients + [ClientCall(id, call.tool, call.args)]), {})
  {
    assert NewPending(b, p.unit.work.chat, id);
    var call := p.unit.work.chat.calls[id];
    var more := p.clients + [ClientCall(id, call.tool, call.args)];
    assert ClientIds(more) == ClientIds(p.clients) + {id} by {
      assert more[|p.clients|].call == id;
      forall x | x in ClientIds(p.clients) ensures x in ClientIds(more) {
        var i :| 0 <= i < |p.clients| && p.clients[i].call == x;
        assert more[i].call == x;
      }
    }
  }

  lemma {:induction false} HandleBlocksGrew(w: World, t: Turn, b: Base, p: Progress, uses: seq<Block>)
    requires Kept(b, p.unit) && Tallied(b, p, {}) && Grounded(b)
    requires (forall x :: x in uses ==> x.ToolUse?) && p.unit.log != [] && b.turn == t.id
    requires |b.store.chat.steps| < |p.unit.work.chat.steps|
    ensures FlowGrew(b, HandleBlocks(w, t, p, uses), {})
    decreases |uses|
  {
    hide Kept, Tallied, HandleBlock;
    if uses != [] {
      HandleBlockGrew(w, t, b, p, uses[0]);
      match HandleBlock(w, t, p, uses[0]) {
        case Halt(_, _) =>
        case More(q) =>
          BlockFrame(w, t, p, uses[0]);
          HandleBlocksGrew(w, t, b, q, uses[1..]);
      }
    }
  }

  lemma {:induction false} PersistFrame(p: Progress, id: Id, x: Execution)
    requires id in p.unit.work.chat.calls
    ensures var q := Persist(p, id, x).unit;
            && q == SetChat(p.unit, q.work.chat)
            && |p.unit.work.chat.steps| <= |q.work.chat.steps|
  {
  }

  lemma {:induction false} ImageFrame(w: World, t: Turn, p: Progress, id: Id, provider: string)
    requires id in p.unit.work.chat.calls && p.unit.log != []
    ensures var f := ExecuteImage(w, t, p, id, provider);
            && f.p.unit.log == p.unit.log && f.p.unit.sent == p.unit.sent && f.p.unit.temporary == p.unit.temporary
            && (f.More? ==> |p.unit.work.chat.steps| <= |f.p.unit.work.chat.steps|)
  {
    hide Persist, Consume;
    match w.picture(|p.unit.sent|, provider)
    case PolicyRefusal => PersistFrame(p, id, Refused("content_policy"));
    case GenerationFailed => PersistFrame(p, id, Refused("image_generation_failed"));
    case Bytes =>
      var a := p.unit.work.account;
      var purse := Consume(a.purse, Uuid(id), w.cost).0;
      PersistFrame(p.(unit := SetAccount(p.unit, a.(purse := purse, images := a.images + [ImageRow(t.id, id)])),
                      images := p.images + [id]), id, Done("image"));
  }

  /** Handling a tool_use block neither commits nor calls the model, and removes no step. */
  lemma {:induction false} BlockFrame(w: World, t: Turn, p: Progress, block: Block)
    requires block.ToolUse? && p.unit.log != []
    ensures var q := HandleBlock(w, t, p, block).p.unit;
            && q.log == p.unit.log && q.sent == p.unit.sent && q.temporary == p.unit.temporary
            && (HandleBlock(w, t, p, block).More? ==> |p.unit.work.chat.steps| <= |q.work.chat.steps|)
  {
    hide Persist, ExecuteImage;
    var checked := w.validate(block.name, block.input);
    var args := if checked.Some? then checked.value else block.input;
    var id := p.unit.next;
    var q := p.(unit := OpenCall(p.unit, t.id, block.name, args, block.id));
    match w.kind(block.name)
    case Image => ImageFrame(w, t, q, id, block.id);
    case Client =>
    case _ => PersistFrame(q, id, w.execute(id, block.name, args));
  }

  /** A turn's final step with its account rows, before the commit. */
  lemma {:induction false} FinalGrew(b: Base, p: Progress, content: seq<Block>, plan: Policy.Plan, purse: Purse,
                                     trialUsed: bool)
    requires Kept(b, p.unit) && Tallied(b, p, {})
    requires p.unit.work.account.purse.ledger <= purse.ledger && (p.unit.work.account.trialUsed ==> trialUsed)
    ensures var u := Write(p.unit, b.turn, Assistant(content, false));
            var a := u.work.account.(finals := u.work.account.finals + [Final(b.turn, plan)],
                                     purse := purse, trialUsed := trialUsed);
            && Kept(b, SetAccount(u, a))
            && Tallied(b, p.(unit := SetAccount(u, a)), {})
            && Kept(b, Commit(SetAccount(u, a)))
            && Tallied(b, p.(unit := Commit(SetAccount(u, a))), {})
  {
    hide Kept, Tallied, AccountGrew;
    var q := p.(unit := Write(p.unit, b.turn, Assistant(content, false)));
    WriteGrew(b, p, Assistant(content, false), {});
    Parts(b, q, {});
    var a := q.unit.work.account;
    var finals := a.finals + [Final(b.turn, plan)];
    AccountGrewOn(b.store.account, a, b.next, purse, a.images, finals, trialUsed);
    AccountStepGrew(b, q, a.(purse := purse, finals := finals, trialUsed := trialUsed), p.images, {});
    EndGrew(b, p.(unit := SetAccount(q.unit, a.(purse := purse, finals := finals, trialUsed := trialUsed))), {});
  }

  lemma {:induction false} FinalizeGrew(t: Turn, b: Base, p: Progress, content: seq<Block>)
    requires Kept(b, p.unit) && Tallied(b, p, {}) && p.clients == []
    requires p.unit.log != [] && b.turn == t.id
    ensures FlowGrew(b, Finalize(t, p, content), {}) && Finalize(t, p, content).Halt?
  {
    hide Kept, Lists, Consume;
    Parts(b, p, {});
    var a := p.unit.work.account;
    match t.plan
    case DebitCredit =>
      var (purse, v) := Consume(a.purse, Uuid(t.id), 1);
      ConsumeGrows(a.purse, Uuid(t.id), 1);
      FinalGrew(b, p, content, t.plan, purse, a.trialUsed);
      if v.Insufficient? {
        var u := Write(p.unit, t.id, Assistant(content, false));
        RollbackGrew(b, SetAccount(u, u.work.account.(finals := a.finals + [Final(t.id, t.plan)], purse := purse)));
      }
    case SpendTrial => FinalGrew(b, p, content, t.plan, a.purse, true);
    case Free => FinalGrew(b, p, content, t.plan, a.purse, a.trialUsed);
  }

  lemma {:induction false} Parts(b: Base, p: Progress, busy: set<Id>)
    requires Kept(b, p.unit) && Tallied(b, p, busy)
    ensures AccountGrew(b.store.account, p.unit.work.account, b.next)
    ensures p.unit.work.account.images == b.store.account.images + Rows(b.turn, p.images)
    ensures |b.store.chat.steps| <= |p.unit.work.chat.steps|
  {
    hide AccountGrew, ChatGrew;
  }

  lemma {:induction false} EndGrew(b: Base, p: Progress, busy: set<Id>)
    requires Kept(b, p.unit) && Tallied(b, p, busy)
    ensures Kept(b, Commit(p.unit)) && Tallied(b, p.(unit := Commit(p.unit)), busy)
  {
    hide StoreGrew, SentOk, ToolsOf;
    CommitGrew(b, p.unit);
  }

  /** Between rounds no call of this generation waits, so the next history may be sent. */
  lemma {:induction false} AskGrew(b: Base, p: Progress)
    requires Kept(b, p.unit) && Tallied(b, p, {}) && p.clients == []
    ensures var u := Commit(p.unit);
            var q := p.(unit := u.(sent := u.sent + [u.work.chat]));
            Kept(b, q.unit) && Tallied(b, q, {})
  {
    hide StoreGrew, ToolsOf;
    EndGrew(b, p, {});
    var u := Commit(p.unit);
    assert ClientIds([]) == {};
    assert u.log[|p.unit.log|].chat == u.work.chat;
    assert SentOk(b, u.log, u.work.chat);
  }

  lemma {:induction false} RoundGrew(w: World, t: Turn, b: Base, p: Progress)
    requires Kept(b, p.unit) && Tallied(b, p, {}) && p.clients == []
    requires b.turn == t.id && Grounded(b)
    ensures FlowGrew(b, Round(w, t, p), {})
    ensures Round(w, t, p).More? ==> Round(w, t, p).p.clients == []
  {
    hide StoreGrew, SentOk, Lists, Finalize, HandleBlocks, AccountGrew;
    AskGrew(b, p);
    var u := Commit(p.unit);
    var q := p.(unit := u.(sent := u.sent + [u.work.chat]));
    match w.model(|u.sent|, Build(u.work.chat.steps))
    case Unavailable =>
    case AuthRejected =>
      if t.mode.Byok? {
        var a := u.work.account;
        var key := if a.key.NoKey? then NoKey else a.key.(status := Policy.KeyExpired);
        Parts(b, q, {});
        KeyGrew(b.store.account, a, b.next, key);
        AccountStepGrew(b, q, a.(key := key), q.images, {});
        CommitGrew(b, SetAccount(q.unit, a.(key := key)));
      }
    case Reply(stop, content) =>
      if stop.MaxTokens? {
        WriteGrew(b, q, Assistant(content, true), {});
        var r := q.(unit := Write(q.unit, t.id, Assistant(content, true)));
        Parts(b, q, {});
        EndGrew(b, r, {});
      } else if stop.ToolUseStop? && ToolUses(content) != [] {
        WriteGrew(b, q, Assistant(content, false), {});
        var r := q.(unit := Write(q.unit, t.id, Assistant(content, false)), clients := []);
        Parts(b, q, {});
        HandleBlocksGrew(w, t, b, r, ToolUses(content));
        match HandleBlocks(w, t, r, ToolUses(content)) {
          case Halt(_, _) =>
          case More(x) => EndGrew(b, x, {});
        }
      } else {
        FinalizeGrew(t, b, q, content);
      }
  }

  lemma {:induction false} KeyGrew(a: Account, b: Account, n: Id, key: Engine.Key)
    requires AccountGrew(a, b, n)
    ensures AccountGrew(a, b.(key := key), n)
  {
  }

  /** Every committed state of a generation extends the state it started from, every history it
      sends was committed first and has no waiting call, and the response agrees with the rows. */
  lemma {:induction false} LoopGrew(w: World, t: Turn, b: Base, p: Progress, n: nat)
    requires Kept(b, p.unit) && Tallied(b, p, {}) && p.clients == []
    requires b.turn == t.id && Grounded(b)
    ensures var (q, out) := Loop(w, t, p, n); Kept(b, q.unit) && Agrees(b, q.unit.log, out) && Saved(q, out)
    decreases n
  {
    hide Kept, Tallied, Round, Agrees;
    CommitGrew(b, p.unit);
    if n == 0 {
      NoClaim(b, Loop(w, t, p, n).0.unit.log, UpstreamError);
    } else {
      RoundGrew(w, t, b, p);
      match Round(w, t, p) {
        case Halt(_, _) =>
        case More(q) => LoopGrew(w, t, b, q, n - 1);
      }
    }
  }

  lemma {:induction false} NoClaim(b: Base, log: seq<Store>, e: Error)
    ensures Agrees(b, log, Raised(e))
  {
  }

  /** A request that has committed and sent nothing yet. */
  ghost predicate Starts(u: Unit) { u.log == [] && u.sent == [] }

  lemma {:induction false} NothingGrew(b: Base, u: Unit)
    requires Starts(u) && b == Base(u.work, u.next, b.turn) && Grounded(b)
    ensures Kept(b, u) && Kept(b, Commit(u)) && Tallied(b, Progress(u, [], [], []), {})
  {
    assert StoreGrew(b, u.work, u.next);
    hide StoreGrew;
    assert u.work.chat.steps[|u.work.chat.steps|..] == [];
    assert Rows(b.turn, []) == [];
    CommitGrew(b, u);
  }

  lemma {:induction false} ContinueGrew(w: World, turn: Id, mode: Policy.Mode, hasProject: bool, u: Unit)
    requires Starts(u) && Grounded(Base(u.work, u.next, turn))
    ensures var (p, out) := Finish(Continue(w, turn, mode, hasProject, u));
            Kept(Base(u.work, u.next, turn), p.unit) && Agrees(Base(u.work, u.next, turn), p.unit.log, out)
  {
    hide Kept, Tallied, Agrees, Loop, Grounded;
    var b := Base(u.work, u.next, turn);
    NothingGrew(b, u);
    var s := u.work.account.PolicyState();
    var (p, out) := Continue(w, turn, mode, hasProject, u);
    var key := u.work.account.key;
    if Policy.Evaluate(s, mode).Allow? && !(mode.Byok? && key.StoredKey? && !key.providerKnown) {
      LoopGrew(w, Turn(turn, mode, Policy.BillingPlan(mode, s), hasProject), b, Progress(u, [], [], []), w.rounds + 1);
    } else {
      BlockedAgrees(b, p.unit.log, out);
    }
    FinishGrew(b, p, out);
  }

  lemma {:induction false} BlockedAgrees(b: Base, log: seq<Store>, out: Outcome)
    requires out.Blocked?
    ensures Agrees(b, log, out)
  {
  }

  lemma {:induction false} FinishGrew(b: Base, p: Progress, out: Outcome)
    requires Kept(b, p.unit) && Agrees(b, p.unit.log, out) && Saved(p, out)
    ensures Kept(b, Finish((p, out)).0.unit) && Agrees(b, Finish((p, out)).0.unit.log, out)
  {
    hide Kept, Lists;
    if !out.Raised? {
      CommitGrew(b, p.unit);
    } else if p.unit.log != [] {
      RollbackGrew(b, p.unit);
    }
  }

  // ---- at most MAX_SERVER_TOOL_ROUNDS + 1 model calls ----

  lemma {:induction false} BlocksFrame(w: World, t: Turn, p: Progress, uses: seq<Block>)
    requires p.unit.log != [] && forall x :: x in uses ==> x.ToolUse?
    ensures var q := HandleBlocks(w, t, p, uses).p.unit;
            q.log == p.unit.log && q.sent == p.unit.sent && q.temporary == p.unit.temporary
    decreases |uses|
  {
    hide HandleBlock;
    if uses != [] {
      BlockFrame(w, t, p, uses[0]);
      match HandleBlock(w, t, p, uses[0]) {
        case Halt(_, _) =>
        case More(q) => BlocksFrame(w, t, q, uses[1..]);
      }
    }
  }

  lemma {:induction false} RoundSends(w: World, t: Turn, p: Progress)
    ensures Round(w, t, p).p.unit.sent == p.unit.sent + [p.unit.work.chat]
    ensures p.unit.log + [p.unit.work] <= Round(w, t, p).p.unit.log
    ensures Round(w, t, p).p.unit.temporary == p.unit.temporary
  {
    hide HandleBlocks, Consume;
    var u := Commit(p.unit);
    var q := p.(unit := u.(sent := u.sent + [u.work.chat]));
    var reply := w.model(|u.sent|, Build(u.work.chat.steps));
    if reply.Reply? && reply.stop.ToolUseStop? && ToolUses(reply.content) != [] {
      BlocksFrame(w, t, q.(unit := Write(q.unit, t.id, Assistant(reply.content, false)), clients := []),
                  ToolUses(reply.content));
    }
  }

  lemma {:induction false} SentBound(w: World, t: Turn, p: Progress, n: nat)
    ensures var q := Loop(w, t, p, n).0.unit;
            p.unit.sent <= q.sent && |q.sent| <= |p.unit.sent| + n && q.temporary == p.unit.temporary
    decreases n
  {
    hide Round;
    if n > 0 {
      RoundSends(w, t, p);
      match Round(w, t, p) {
        case Halt(_, _) =>
        case More(q) => SentBound(w, t, q, n - 1);
      }
    }
  }

  lemma {:induction false} ContinueSends(w: World, turn: Id, mode: Policy.Mode, hasProject: bool, u: Unit)
    requires Starts(u)
    ensures var q := Finish(Continue(w, turn, mode, hasProject, u)).0.unit;
            |q.sent| <= w.rounds + 1 && q.temporary == u.temporary
  {
    hide Loop;
    var s := u.work.account.PolicyState();
    SentBound(w, Turn(turn, mode, Policy.BillingPlan(mode, s), hasProject), Progress(u, [], [], []), w.rounds + 1);
  }
}
