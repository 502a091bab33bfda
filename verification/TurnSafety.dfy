/** Every state a turn commits satisfies the invariants of the rows and of the money. */
module TurnSafety {
  import opened Wallet
  import opened Records
  import opened Repository
  import opened Engine
  import opened Money
  import opened History
  import opened Growth
  import Policy

  /** A committed state. The steps of a temporary chat are not rows, so only the account counts. */
  ghost predicate StoreInv(cost: int, s: Store, next: Id, temporary: bool) {
    && AccountInv(cost, s.account, next)
    && (!temporary ==> ChatInv(s.chat, s.account.initiated, next))
  }

  ghost predicate LogInv(cost: int, u: Unit) {
    forall i :: 0 <= i < |u.log| ==> StoreInv(cost, u.log[i], u.next, u.temporary)
  }

  ghost predicate UnitInv(cost: int, u: Unit) {
    StoreInv(cost, u.work, u.next, u.temporary) && LogInv(cost, u)
  }

  /** The turn being generated: its id is an old one, not a tool call, and its user step is stored. */
  ghost predicate TurnInv(t: Turn, u: Unit) {
    && t.id < u.next
    && t.id !in u.work.account.initiated
    && t.id in Turns(u.work.chat.steps)
    && (t.plan.SpendTrial? ==> !u.work.account.trialUsed)
  }

  ghost predicate Going(w: World, t: Turn, p: Progress) {
    UnitInv(w.cost, p.unit) && TurnInv(t, p.unit)
  }

  /** What holds when a request stops: after an exception only the log counts. */
  ghost predicate Stopped(w: World, p: Progress, out: Outcome) {
    LogInv(w.cost, p.unit) && (!out.Raised? ==> UnitInv(w.cost, p.unit))
  }

  ghost predicate FlowInv(w: World, t: Turn, f: Flow) {
    match f
    case More(p) => Going(w, t, p)
    case Halt(p, out) => Stopped(w, p, out)
  }

  lemma {:induction false} StoreLater(cost: int, s: Store, next: Id, later: Id, temporary: bool)
    requires StoreInv(cost, s, next, temporary) && next <= later && 0 < next
    ensures StoreInv(cost, s, later, temporary)
  {
    NextGrows(cost, s.account, next, later);
    if !temporary { LaterKeepsChat(s.chat, s.account.initiated, next, later, 0); }
  }

  lemma {:induction false} LogLater(cost: int, u: Unit, later: Id)
    requires LogInv(cost, u) && u.next <= later && 0 < u.next
    ensures LogInv(cost, u.(next := later))
  {
    hide StoreInv;
    var v := u.(next := later);
    forall i | 0 <= i < |v.log| ensures StoreInv(cost, v.log[i], later, v.temporary) {
      StoreLater(cost, u.log[i], u.next, later, u.temporary);
    }
  }

  lemma {:induction false} CommitKeeps(cost: int, u: Unit)
    requires UnitInv(cost, u)
    ensures UnitInv(cost, Commit(u))
  {
    hide StoreInv;
  }

  lemma {:induction false} RollbackKeeps(cost: int, u: Unit)
    requires LogInv(cost, u) && u.log != []
    ensures UnitInv(cost, Rollback(u))
  {
    hide AccountInv, ChatInv;
  }

  lemma {:induction false} WriteKeeps(w: World, t: Turn, p: Progress, body: Body)
    requires Going(w, t, p) && !body.Tool?
    ensures Going(w, t, p.(unit := Write(p.unit, t.id, body)))
  {
    hide AccountInv, ChatInv;
    TurnsSnoc(p.unit.work.chat.steps, Step(t.id, body));
    if !p.unit.temporary {
      WriteKeepsChat(p.unit.work.chat, p.unit.work.account.initiated, p.unit.next, t.id, body);
    }
  }

  lemma {:induction false} OpenCallKeeps(w: World, t: Turn, p: Progress, tool: string, args: string, provider: string)
    requires Going(w, t, p)
    ensures Going(w, t, p.(unit := OpenCall(p.unit, t.id, tool, args, provider)))
  {
    hide ChatInv, Conserved, KeysInv, TrialOnce, Sound;
    var u := p.unit;
    OpenKeepsAccount(w.cost, u.work.account, u.next, t.id);
    if !u.temporary {
      OpenCallKeepsChat(u.work.chat, u.work.account.initiated, u.next, t.id, tool, args, provider);
    }
    LogLater(w.cost, u, u.next + 1);
  }

  lemma {:induction false} AnswerKeeps(c: Chat, initiated: map<Id, Id>, next: Id, id: Id, result: Option<string>,
                                       error: Option<string>)
    requires ChatInv(c, initiated, next) && id in c.calls
    ensures ChatInv(Answer(c, id, result, error), initiated, next)
  {
    hide ChatInv;
    if IsPending(c, id) {
      var body := Tool(id, c.calls[id].provider, c.calls[id].tool, result, error);
      AnswerKeepsChat(c, initiated, next, id, body);
    }
  }

  lemma {:induction false} AnswerTurns(c: Chat, id: Id, result: Option<string>, error: Option<string>)
    requires id in c.calls
    ensures Turns(c.steps) <= Turns(Answer(c, id, result, error).steps)
  {
    if IsPending(c, id) {
      TurnsSnoc(c.steps, Step(c.calls[id].turn, Tool(id, c.calls[id].provider, c.calls[id].tool, result, error)));
    }
  }

  lemma {:induction false} PersistKeeps(w: World, t: Turn, p: Progress, id: Id, x: Execution)
    requires Going(w, t, p) && id in p.unit.work.chat.calls
    ensures Going(w, t, Persist(p, id, x))
  {
    hide AccountInv, ChatInv, Answer;
    var result := if x.Done? then Some(x.result) else None;
    var error := if x.Refused? then Some(x.code) else None;
    AnswerTurns(p.unit.work.chat, id, result, error);
    if !p.unit.temporary {
      AnswerKeeps(p.unit.work.chat, p.unit.work.account.initiated, p.unit.next, id, result, error);
    }
  }

  lemma {:induction false} ExecuteImageKeeps(w: World, t: Turn, p: Progress, id: Id, provider: string)
    requires Going(w, t, p) && id in p.unit.work.chat.calls && p.unit.log != []
    requires id in p.unit.work.account.initiated && p.unit.work.account.initiated[id] == t.id
    requires Wallet.Key.Uuid(id) !in Keys(p.unit.work.account.purse.ledger)
    ensures FlowInv(w, t, ExecuteImage(w, t, p, id, provider))
  {
    hide AccountInv, ChatInv, Persist, Consume, Keys;
    match w.picture(|p.unit.sent|, provider)
    case PolicyRefusal => PersistKeeps(w, t, p, id, Refused("content_policy"));
    case GenerationFailed => PersistKeeps(w, t, p, id, Refused("image_generation_failed"));
    case Bytes =>
      var a := p.unit.work.account;
      var (purse, v) := Consume(a.purse, Uuid(id), w.cost);
      if v.Insufficient? {
        RollbackKeeps(w.cost, SetAccount(p.unit, a.(purse := purse)));
      } else if !v.Conflict? {
        ChargeKeepsAccount(w.cost, a, p.unit.next, t.id, id);
        var r := p.(unit := SetAccount(p.unit, ChargeImage(a, purse, t.id, id)), images := p.images + [id]);
        PersistKeeps(w, t, r, id, Done("image"));
      }
  }

  lemma {:induction false} HandleBlockKeeps(w: World, t: Turn, p: Progress, b: Block)
    requires Going(w, t, p) && b.ToolUse? && p.unit.log != []
    ensures FlowInv(w, t, HandleBlock(w, t, p, b))
  {
    hide ChatInv, ExecuteImage, Persist, Keys, Sound, Conserved, TrialOnce;
    var kind := w.kind(b.name);
    var checked := w.validate(b.name, b.input);
    if (kind.Site? && !t.hasProject) || (checked.None? && !kind.Quiz?) {
    } else {
      var args := if checked.Some? then checked.value else b.input;
      var id := p.unit.next;
      var q := p.(unit := OpenCall(p.unit, t.id, b.name, args, b.id));
      OpenCallKeeps(w, t, p, b.name, args, b.id);
      match kind {
        case Image => ExecuteImageKeeps(w, t, q, id, b.id);
        case Client =>
        case _ => PersistKeeps(w, t, q, id, w.execute(id, b.name, args));
      }
    }
  }

  lemma {:induction false} HandleBlocksKeeps(w: World, t: Turn, p: Progress, uses: seq<Block>)
    requires Going(w, t, p) && p.unit.log != [] && forall b :: b in uses ==> b.ToolUse?
    ensures FlowInv(w, t, HandleBlocks(w, t, p, uses))
    decreases |uses|
  {
    hide Going, Stopped, HandleBlock;
    if uses != [] {
      HandleBlockKeeps(w, t, p, uses[0]);
      BlockFrame(w, t, p, uses[0]);
      match HandleBlock(w, t, p, uses[0]) {
        case Halt(_, _) =>
        case More(q) => HandleBlocksKeeps(w, t, q, uses[1..]);
      }
    }
  }

  lemma {:induction false} FinalizeKeeps(w: World, t: Turn, p: Progress, content: seq<Block>)
    requires Going(w, t, p) && p.unit.log != []
    ensures FlowInv(w, t, Finalize(t, p, content))
  {
    hide AccountInv, ChatInv, Consume;
    var q := p.(unit := Write(p.unit, t.id, Assistant(content, false)));
    var u := q.unit;
    WriteKeeps(w, t, p, Assistant(content, false));
    var a := u.work.account;
    match t.plan
    case DebitCredit =>
      var b := AddFinal(a, t.id, t.plan);
      var (purse, v) := Consume(b.purse, Uuid(t.id), 1);
      if v.Insufficient? {
        RollbackKeeps(w.cost, SetAccount(u, b.(purse := purse)));
      } else if !v.Conflict? {
        BilledFinalKeepsAccount(w.cost, a, u.next, t.id);
        CommitKeeps(w.cost, SetAccount(u, b.(purse := purse)));
      }
    case SpendTrial =>
      FreeFinalKeepsAccount(w.cost, a, u.next, t.id, t.plan);
      CommitKeeps(w.cost, SetAccount(u, AddFinal(a, t.id, t.plan).(trialUsed := true)));
    case Free =>
      FreeFinalKeepsAccount(w.cost, a, u.next, t.id, t.plan);
      CommitKeeps(w.cost, SetAccount(u, AddFinal(a, t.id, t.plan)));
  }

  lemma {:induction false} RoundKeeps(w: World, t: Turn, p: Progress)
    requires Going(w, t, p)
    ensures FlowInv(w, t, Round(w, t, p))
  {
    hide AccountInv, ChatInv, Finalize, HandleBlocks;
    CommitKeeps(w.cost, p.unit);
    var u := Commit(p.unit);
    var q := p.(unit := u.(sent := u.sent + [u.work.chat]));
    match w.model(|u.sent|, Build(u.work.chat.steps))
    case Unavailable =>
    case AuthRejected =>
      if t.mode.Byok? {
        var a := u.work.account;
        var b := a.(key := if a.key.NoKey? then NoKey else a.key.(status := Policy.KeyExpired));
        SettingsKeepAccount(w.cost, a, u.next, b);
        CommitKeeps(w.cost, SetAccount(q.unit, b));
      }
    case Reply(stop, content) =>
      if stop.MaxTokens? {
        WriteKeeps(w, t, q, Assistant(content, true));
        CommitKeeps(w.cost, Write(q.unit, t.id, Assistant(content, true)));
      } else if stop.ToolUseStop? && ToolUses(content) != [] {
        var uses := ToolUses(content);
        var r := q.(unit := Write(q.unit, t.id, Assistant(content, false)), clients := []);
        WriteKeeps(w, t, q, Assistant(content, false));
        HandleBlocksKeeps(w, t, r, uses);
        match HandleBlocks(w, t, r, uses) {
          case Halt(_, _) =>
          case More(x) => CommitKeeps(w.cost, x.unit);
        }
      } else {
        FinalizeKeeps(w, t, q, content);
      }
  }

  lemma {:induction false} SettingsKeepAccount(cost: int, a: Account, next: Id, b: Account)
    requires AccountInv(cost, a, next)
    requires b == a.(key := b.key, subscription := b.subscription)
    ensures AccountInv(cost, b, next)
  {
    forall t | t !in b.initiated ensures Balanced(cost, b, t) { assert Balanced(cost, a, t); }
  }

  lemma {:induction false} LoopKeeps(w: World, t: Turn, p: Progress, n: nat)
    requires Going(w, t, p)
    ensures Stopped(w, Loop(w, t, p, n).0, Loop(w, t, p, n).1)
    decreases n
  {
    hide Round, StoreInv, TurnInv;
    CommitKeeps(w.cost, p.unit);
    if n > 0 {
      RoundKeeps(w, t, p);
      match Round(w, t, p) {
        case Halt(_, _) =>
        case More(q) => LoopKeeps(w, t, q, n - 1);
      }
    }
  }

  ghost predicate Startable(u: Unit, turn: Id) {
    turn < u.next && turn !in u.work.account.initiated && turn in Turns(u.work.chat.steps)
  }

  lemma {:induction false} ContinueKeeps(w: World, turn: Id, mode: Policy.Mode, hasProject: bool, u: Unit)
    requires UnitInv(w.cost, u) && Startable(u, turn)
    ensures var (p, out) := Continue(w, turn, mode, hasProject, u); Stopped(w, p, out)
  {
    hide StoreInv, Loop;
    var s := u.work.account.PolicyState();
    if Policy.Evaluate(s, mode).Allow? {
      var t := Turn(turn, mode, Policy.BillingPlan(mode, s), hasProject);
      if mode.Byok? && u.work.account.key.StoredKey? && !u.work.account.key.providerKnown {
        CommitKeeps(w.cost, u);
      } else {
        LoopKeeps(w, t, Progress(u, [], [], []), w.rounds + 1);
      }
    }
  }

  lemma {:induction false} FinishKeeps(w: World, p: Progress, out: Outcome)
    requires Stopped(w, p, out)
    ensures LogInv(w.cost, Finish((p, out)).0.unit)
  {
    hide StoreInv;
    if !out.Raised? {
      CommitKeeps(w.cost, p.unit);
    } else if p.unit.log != [] {
      RollbackKeeps(w.cost, p.unit);
    }
  }

  /** The states committed by one generation, from the rows it starts with. */
  lemma {:induction false} GenerationKeeps(w: World, turn: Id, mode: Policy.Mode, hasProject: bool, u: Unit)
    requires UnitInv(w.cost, u) && Startable(u, turn)
    ensures LogInv(w.cost, Finish(Continue(w, turn, mode, hasProject, u)).0.unit)
  {
    hide LogInv, UnitInv, Startable, Finish, Continue, Stopped;
    ContinueKeeps(w, turn, mode, hasProject, u);
    var (p, out) := Continue(w, turn, mode, hasProject, u);
    FinishKeeps(w, p, out);
  }

  /** The rows a run starts its generation with: truncated if it edits, plus its user step. */
  lemma {:induction false} AskKeeps(cost: int, u: Unit, chat: Chat, turn: Id, body: Body)
    requires AccountInv(cost, u.work.account, turn) && Starts(u) && u.next == turn + 1
    requires !u.temporary ==> ChatInv(chat, u.work.account.initiated, turn)
    requires !body.Tool?
    ensures var v := Write(SetChat(u, chat), turn, body); UnitInv(cost, v) && Startable(v, turn)
  {
    hide AccountInv, ChatInv;
    NextGrows(cost, u.work.account, turn, turn + 1);
    TurnsSnoc(chat.steps, Step(turn, body));
    assert turn !in u.work.account.initiated by { IdsBelow(cost, u.work.account, turn); }
    if !u.temporary {
      ChatLater(chat, u.work.account.initiated, turn, turn + 1);
      WriteKeepsChat(chat, u.work.account.initiated, turn + 1, turn, body);
    }
  }

  lemma {:induction false} IdsBelow(cost: int, a: Account, next: Id)
    requires AccountInv(cost, a, next)
    ensures forall k :: k in a.initiated ==> k < next
  {
    hide Sound, KeysInv, Conserved, TrialOnce;
  }

  lemma {:induction false} ChatLater(c: Chat, initiated: map<Id, Id>, next: Id, later: Id)
    requires ChatInv(c, initiated, next) && next <= later
    ensures ChatInv(c, initiated, later)
  {
    hide CallsHaveSteps, CallInv, ResultMatches;
    forall i | 0 <= i < |c.steps| ensures StepInv(c, initiated, later, c.steps[i]) {
      assert StepInv(c, initiated, next, c.steps[i]);
    }
  }

  lemma {:induction false} TruncateKeeps(c: Chat, initiated: map<Id, Id>, next: Id, turn: Id)
    requires ChatInv(c, initiated, next) && Truncate(c, turn).Some?
    ensures ChatInv(Truncate(c, turn).value, initiated, next)
  {
    hide ChatInv, CutAt;
    CutKeepsChat(c, initiated, next, FirstIndex(c.steps, 0, IsUser(turn)).value);
  }

  lemma {:induction false} ApplyKeeps(c: Chat, initiated: map<Id, Id>, next: Id, items: seq<ResultItem>)
    requires ChatInv(c, initiated, next)
    ensures ChatInv(ApplyResults(c, items), initiated, next)
    ensures Turns(c.steps) <= Turns(ApplyResults(c, items).steps)
    decreases |items|
  {
    hide ChatInv, Answer, Turns;
    if items != [] {
      if items[0].call in c.calls {
        AnswerKeeps(c, initiated, next, items[0].call, items[0].result, items[0].error);
        AnswerTurns(c, items[0].call, items[0].result, items[0].error);
        ApplyKeeps(Answer(c, items[0].call, items[0].result, items[0].error), initiated, next, items[1..]);
      } else {
        ApplyKeeps(c, initiated, next, items[1..]);
      }
    }
  }

  lemma {:induction false} StartableIf(u: Unit, turn: Id)
    requires turn < u.next && turn !in u.work.account.initiated && turn in Turns(u.work.chat.steps)
    ensures Startable(u, turn)
  {
  }

  /** The turn of a stored call is an older turn with a step in the history. */
  lemma {:induction false} CallTurn(cost: int, s: Store, next: Id, id: Id)
    requires StoreInv(cost, s, next, false) && id in s.chat.calls
    ensures var turn := s.chat.calls[id].turn;
            turn < next && turn !in s.account.initiated && turn in Turns(s.chat.steps)
  {
    hide Sound, KeysInv, Conserved, TrialOnce, StepInv, ResultCount;
    assert CallInv(s.chat, s.account.initiated, id);
  }
}
