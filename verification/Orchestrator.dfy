/** The orchestrator as it is written: loops over rounds, tool_use blocks and results, on a unit of
work that commits and rolls back. Each method is proved against its function in `Engine`. */
module Orchestrator {
  import opened Wallet
  import opened Records
  import opened Repository
  import opened Engine
  import opened ChatRepositories
  import opened Growth
  import Policy

  /** Two states of the tables that differ in one session at most. */
  ghost predicate SameElsewhere(a: map<Id, Chat>, b: map<Id, Chat>, session: Id) {
    forall k :: k != session ==> (k in a <==> k in b) && (k in a ==> a[k] == b[k])
  }

  lemma {:induction false} OwnSession(a: map<Id, Chat>, b: map<Id, Chat>, session: Id, c: Chat)
    requires SameElsewhere(a, b, session)
    ensures SameElsewhere(a[session := c], b, session)
  {
  }

  function Expired(a: Engine.Account): Engine.Account {
    a.(key := if a.key.NoKey? then NoKey else a.key.(status := Policy.KeyExpired))
  }

  /** The user's rows outside the chat tables: audit log, image table, `users`, subscription and key. */
  class UserRows {
    var initiated: map<Id, Id>
    var images: seq<ImageRow>
    var finals: seq<Final>
    var trialUsed: bool
    var subscription: Policy.Subscription
    var key: Engine.Key

    function Account(purse: Purse): Engine.Account reads this {
      Engine.Account(purse, initiated, images, finals, trialUsed, subscription, key)
    }

    constructor (a: Engine.Account)
      ensures Account(a.purse) == a
    {
      initiated, images, finals, trialUsed := a.initiated, a.images, a.finals, a.trialUsed;
      subscription, key := a.subscription, a.key;
    }

    method Restore(a: Engine.Account)
      modifies this
      ensures Account(a.purse) == a
    {
      initiated, images, finals, trialUsed := a.initiated, a.images, a.finals, a.trialUsed;
      subscription, key := a.subscription, a.key;
    }
  }

  /** The database session of one request: working rows over the states committed so far. The chat of
      a temporary request is in `memory` instead of the tables. */
  class UnitOfWork {
    const repo: ChatRepository
    const memory: EphemeralChatRepository
    const wallet: WalletService
    const users: UserRows
    const session: Id
    const temporary: bool
    ghost const begun: map<Id, Chat>   // the tables when the request began
    var committed: map<Id, Chat>       // the tables as of the last commit
    var log: seq<Store>
    var next: Id
    var sent: seq<Chat>

    ghost function Objects(): set<object> reads memory { {this, repo, memory, wallet, users} + memory.Held() }

    /** A temporary request leaves the chat tables alone; any other writes to its own session only. */
    ghost predicate Valid() reads this, repo, memory, memory.Held() {
      && memory.Valid()
      && (temporary ==> repo.chats == begun && committed == begun)
      && (!temporary ==>
            && SameElsewhere(repo.chats, begun, session)
            && SameElsewhere(committed, begun, session)
            && if log == [] then committed == begun else RowsOf(committed, session) == log[|log| - 1].chat)
    }

    function Account(): Account reads users, wallet { users.Account(wallet.State()) }

    /** The chat of the request, wherever it is kept. */
    function Rows(): Chat reads repo, memory, memory.Held() {
      if temporary then memory.Rows() else repo.Rows(session)
    }

    function Work(): Store reads repo, wallet, users, memory, memory.Held() { Store(Rows(), Account()) }

    function State(): Unit reads this, repo, wallet, users, memory, memory.Held() {
      Unit(Work(), log, next, sent, temporary)
    }

    constructor (chats: map<Id, Chat>, session: Id, seed: seq<Step>, a: Engine.Account, next: Id, temporary: bool)
      ensures State() == Unit(Store(if temporary then Chat(seed, map[]) else RowsOf(chats, session), a),
                              [], next, [], temporary)
      ensures Valid() && begun == chats && this.session == session && this.temporary == temporary && fresh(Objects())
    {
      repo := new ChatRepository(chats);
      memory := new EphemeralChatRepository(seed);
      var w := new WalletService();
      w.balance, w.ledger := a.purse.balance, a.purse.ledger;
      wallet := w;
      this.session, this.temporary, begun, committed := session, temporary, chats, chats;
      users := new UserRows(a);
      log, this.next, sent := [], next, [];
    }

    method Commit()
      requires Valid()
      modifies this`log, this`committed
      ensures Valid() && State() == Engine.Commit(old(State()))
    {
      log := log + [Work()];
      committed := repo.chats;
    }

    method RestoreAccount(a: Engine.Account)
      requires Valid()
      modifies wallet, users
      ensures Valid() && State() == SetAccount(old(State()), a)
    {
      hide SameElsewhere;
      users.Restore(a);
      wallet.balance, wallet.ledger := a.purse.balance, a.purse.ledger;
    }

    /** The tables go back to the last commit; the memory of a temporary chat stays. */
    method Rollback()
      requires Valid() && log != []
      modifies repo, wallet, users
      ensures Valid() && State() == Engine.Rollback(old(State()))
    {
      hide SameElsewhere;
      RestoreAccount(log[|log| - 1].account);
      repo.chats := committed;
    }

    /** UPDATE users SET trial_used = TRUE WHERE trial_used = FALSE. */
    method MarkTrialUsed() returns (flipped: bool)
      requires Valid()
      modifies users`trialUsed
      ensures Valid() && State() == SetAccount(old(State()), old(Account()).(trialUsed := true))
          && flipped == !old(users.trialUsed)
    {
      flipped := !users.trialUsed;
      users.trialUsed := true;
    }

    /** A generated id for a new turn. */
    method FreshId() returns (id: Id)
      requires Valid()
      modifies this`next
      ensures Valid() && id == old(next) && State() == old(State()).(next := id + 1)
    {
      id := next;
      next := next + 1;
    }

    /** The history that the next model call sends. */
    method Sending()
      requires Valid()
      modifies this`sent
      ensures Valid() && State() == old(State()).(sent := old(sent) + [old(Rows())])
    {
      sent := sent + [Rows()];
    }

    method Debit(k: Wallet.Key, amount: int) returns (v: Verdict)
      requires Valid()
      modifies wallet
      ensures Valid() && v == Consume(old(Account()).purse, k, amount).1
      ensures State() == SetAccount(old(State()), old(Account()).(purse := Consume(old(Account()).purse, k, amount).0))
    {
      hide SameElsewhere, Consume;
      v := wallet.Consume(k, amount);
    }

    method StoreImage(turn: Id, call: Id)
      requires Valid()
      modifies users`images
      ensures Valid()
      ensures State() == SetAccount(old(State()), old(Account()).(images := old(Account()).images + [ImageRow(turn, call)]))
    {
      users.images := users.images + [ImageRow(turn, call)];
    }

    /** The audit row of a final step. */
    method RecordFinal(turn: Id, plan: Policy.Plan)
      requires Valid()
      modifies users`finals
      ensures Valid()
      ensures State() == SetAccount(old(State()), old(Account()).(finals := old(Account()).finals + [Final(turn, plan)]))
    {
      users.finals := users.finals + [Final(turn, plan)];
    }

    /** The provider rejected the user's own key. */
    method ExpireKey()
      requires Valid()
      modifies users`key
      ensures Valid()
      ensures State() == SetAccount(old(State()), Expired(old(Account())))
    {
      if users.key.StoredKey? { users.key := users.key.(status := Policy.KeyExpired); }
    }

    method AddStep(turn: Id, body: Body)
      requires Valid()
      modifies repo, memory
      ensures Valid() && memory.Held() == old(memory.Held())
      ensures State() == Write(old(State()), turn, body)
    {
      if temporary { memory.AddStep(turn, body); } else { repo.AddStep(session, turn, body); }
    }

    method InsertToolCall(id: Id, turn: Id, tool: string, args: string, provider: string)
      requires Valid()
      modifies repo, memory
      ensures Valid() && fresh(memory.Held() - old(memory.Held()))
      ensures State() == SetChat(old(State()), CreateCall(old(Rows()), id, turn, tool, args, provider))
    {
      hide SameElsewhere, CreateCall;
      if temporary {
        memory.CreateToolCall(id, turn, tool, args, provider);
      } else {
        OwnSession(repo.chats, begun, session, CreateCall(Rows(), id, turn, tool, args, provider));
        repo.CreateToolCall(session, id, turn, tool, args, provider);
      }
    }

    /** A pending call under a fresh id, and its audit row. */
    method CreateToolCall(turn: Id, tool: string, args: string, provider: string) returns (id: Id)
      requires Valid()
      modifies this`next, users, repo, memory
      ensures Valid() && fresh(memory.Held() - old(memory.Held()))
      ensures id == old(next) && id in Rows().calls && log == old(log)
      ensures State() == OpenCall(old(State()), turn, tool, args, provider)
    {
      hide SameElsewhere, UnitOfWork.Valid;
      id := FreshId();
      InsertToolCall(id, turn, tool, args, provider);
      RecordCall(id, turn);
    }

    /** The audit row of a tool call. */
    method RecordCall(id: Id, turn: Id)
      requires Valid()
      modifies users`initiated
      ensures Valid()
      ensures State() == SetAccount(old(State()), old(Account()).(initiated := old(Account()).initiated[id := turn]))
    {
      users.initiated := users.initiated[id := turn];
    }

    method CompleteToolCall(id: Id, status: Status, result: Option<string>) returns (transitioned: bool)
      requires Valid()
      modifies repo, memory.Held()
      ensures Valid() && memory.Held() == old(memory.Held())
      ensures State() == SetChat(old(State()), Rows())
      ensures (Rows(), transitioned) == CompleteCall(old(Rows()), id, status, result)
    {
      if temporary {
        transitioned := memory.CompleteToolCall(id, status, result);
      } else {
        transitioned := repo.CompleteToolCall(session, id, status, result);
      }
    }

    /** `complete_tool_call`, then the tool step, unless the call already had its result. */
    method ApplyToolResult(id: Id, result: Option<string>, error: Option<string>)
      requires Valid() && id in Rows().calls
      modifies repo, memory, memory.Held()
      ensures Valid() && memory.Held() == old(memory.Held())
      ensures State() == SetChat(old(State()), Answer(old(Rows()), id, result, error))
    {
      var call := Rows().calls[id];
      var transitioned := CompleteToolCall(id, if error.Some? then Errored else Completed,
                                           if result.Some? then result else error);
      if transitioned { AddStep(call.turn, Tool(id, call.provider, call.tool, result, error)); }
    }

    /** Editing is refused in memory. */
    method TruncateFromMessageStep(turn: Id) returns (deleted: bool)
      requires Valid()
      modifies repo
      ensures Valid() && State() == SetChat(old(State()), Rows())
      ensures var cut := if temporary then None else Truncate(old(Rows()), turn);
              deleted == cut.Some? && Rows() == if deleted then cut.value else old(Rows())
    {
      var gone := None;
      if temporary {
        gone := memory.TruncateFromMessageStep(turn);
      } else {
        gone := repo.TruncateFromMessageStep(session, turn);
      }
      return gone.Some?;
    }

    /** Nothing is replayed from memory. */
    method NextStepAfter(turn: Id, call: Id) returns (r: Option<Step>)
      ensures r == if temporary then None else Repository.NextStepAfter(Rows(), turn, call)
    {
      if temporary {
        r := memory.NextStepAfter(turn, call);
      } else {
        r := repo.NextStepAfter(session, turn, call);
      }
    }
  }

  function AsFlow(p: Progress, halted: Option<Outcome>): Flow {
    if halted.Some? then Halt(p, halted.value) else More(p)
  }

  class ChatOrchestrator {
    const db: UnitOfWork
    const world: World
    var serverTools: seq<ServerTool>
    var imagesAcc: seq<Id>
    var clientOuts: seq<ClientCall>

    ghost function Objects(): set<object> reads db.memory { {this} + db.Objects() }

    function Current(): Progress reads this, db, db.repo, db.wallet, db.users, db.memory, db.memory.Held() {
      Progress(db.State(), serverTools, imagesAcc, clientOuts)
    }

    constructor (db: UnitOfWork, world: World)
      ensures this.db == db && this.world == world && Current() == Progress(db.State(), [], [], [])
    {
      this.db, this.world := db, world;
      serverTools, imagesAcc, clientOuts := [], [], [];
    }

    /** Record an execution in the response list, complete its call, store its tool step. */
    method PersistOutcome(id: Id, x: Execution)
      requires db.Valid() && id in db.Rows().calls
      modifies Objects()
      ensures db.Valid() && Objects() == old(Objects())
      ensures Current() == Persist(old(Current()), id, x)
    {
      hide Answer, UnitOfWork.Valid, UnitOfWork.Rows, UnitOfWork.Account;
      serverTools := serverTools + [ServerTool(id, db.Rows().calls[id].tool, if x.Refused? then Errored else Completed)];
      db.ApplyToolResult(id, if x.Done? then Some(x.result) else None, if x.Refused? then Some(x.code) else None);
    }

    method ExecuteImageGenerateTool(t: Turn, id: Id, provider: string) returns (halted: Option<Outcome>)
      requires db.Valid() && id in db.Rows().calls && db.log != []
      modifies Objects()
      ensures db.Valid() && fresh(Objects() - old(Objects()))
      ensures AsFlow(Current(), halted) == ExecuteImage(world, t, old(Current()), id, provider)
    {
      hide Consume, Persist, Engine.Rollback, UnitOfWork.Valid, UnitOfWork.Rows, UnitOfWork.Account;
      var picture := world.picture(|db.sent|, provider);
      if picture.PolicyRefusal? {
        PersistOutcome(id, Refused("content_policy"));
        return None;
      }
      if picture.GenerationFailed? {
        PersistOutcome(id, Refused("image_generation_failed"));
        return None;
      }
      var v := db.Debit(Uuid(id), world.cost);
      if v.Insufficient? {
        db.Rollback();
        return Some(Blocked(Policy.ImageCreditsEmpty));
      }
      if v.Conflict? { return Some(Raised(ConflictError)); }
      db.StoreImage(t.id, id);
      imagesAcc := imagesAcc + [id];
      PersistOutcome(id, Engine.Done("image"));
      return None;
    }

    method HandleToolUseBlock(t: Turn, block: Block) returns (halted: Option<Outcome>)
      requires db.Valid() && block.ToolUse? && db.log != []
      modifies Objects()
      ensures db.Valid() && fresh(Objects() - old(Objects()))
      ensures AsFlow(Current(), halted) == HandleBlock(world, t, old(Current()), block)
    {
      hide Persist, ExecuteImage, OpenCall, UnitOfWork.Valid, UnitOfWork.Rows, UnitOfWork.Account;
      var kind := world.kind(block.name);
      if kind.Site? && !t.hasProject { return Some(Raised(UpstreamError)); }
      var checked := world.validate(block.name, block.input);
      if checked.None? && !kind.Quiz? { return Some(Raised(ValidationError)); }
      var args := if checked.Some? then checked.value else block.input;
      var id := db.CreateToolCall(t.id, block.name, args, block.id);
      match kind {
        case Image => halted := ExecuteImageGenerateTool(t, id, block.id);
        case Client =>
          if db.temporary { return Some(Raised(UpstreamError)); }
          clientOuts := clientOuts + [ClientCall(id, block.name, args)];
          return None;
        case _ =>
          PersistOutcome(id, world.execute(id, block.name, args));
          return None;
      }
    }

    method HandleToolUseBlocks(t: Turn, uses: seq<Block>) returns (halted: Option<Outcome>)
      requires db.Valid() && db.log != [] && forall b :: b in uses ==> b.ToolUse?
      modifies Objects()
      ensures db.Valid() && fresh(Objects() - old(Objects()))
      ensures AsFlow(Current(), halted) == HandleBlocks(world, t, old(Current()), uses)
      ensures halted.None? ==> db.log == old(db.log)
    {
      hide HandleBlock, UnitOfWork.Valid, UnitOfWork.Rows, UnitOfWork.Account;
      ghost var start := Current();
      var i := 0;
      while i < |uses|
        invariant i <= |uses| && db.log == old(db.log) && db.Valid() && fresh(Objects() - old(Objects()))
        invariant HandleBlocks(world, t, start, uses) == HandleBlocks(world, t, Current(), uses[i..])
      {
        ghost var before := Current();
        assert uses[i..][0] == uses[i] && uses[i..][1..] == uses[i + 1..];
        halted := HandleToolUseBlock(t, uses[i]);
        if halted.Some? { return; }
        BlockFrame(world, t, before, uses[i]);
        i := i + 1;
      }
      assert uses[i..] == [];
      return None;
    }

    /** Image arguments are checked, and the images generated, before anything is written. */
    method HandleToolUse(t: Turn, content: seq<Block>) returns (halted: Option<Outcome>)
      requires db.Valid() && db.log != []
      modifies Objects()
      ensures db.Valid() && fresh(Objects() - old(Objects()))
      ensures AsFlow(Current(), halted) == Engine.HandleToolUse(world, t, old(Current()), content)
      ensures halted.None? ==> db.log == old(db.log)
    {
      hide HandleBlocks, UnitOfWork.Valid, UnitOfWork.Rows, UnitOfWork.Account;
      var uses := ToolUses(content);
      for i := 0 to |uses|
        invariant forall j :: 0 <= j < i ==>
                    !(world.kind(uses[j].name).Image? && world.validate(uses[j].name, uses[j].input).None?)
      {
        if world.kind(uses[i].name).Image? && world.validate(uses[i].name, uses[i].input).None? {
          return Some(Raised(ValidationError));
        }
      }
      db.AddStep(t.id, Assistant(content, false));
      clientOuts := [];
      halted := HandleToolUseBlocks(t, uses);
    }

    method HandleMaxTokens(t: Turn, content: seq<Block>) returns (out: Outcome)
      requires db.Valid()
      modifies Objects()
      ensures db.Valid() && fresh(Objects() - old(Objects()))
      ensures Halt(Current(), out) == Engine.HandleMaxTokens(t, old(Current()), content)
    {
      db.AddStep(t.id, Assistant(content, true));
      db.Commit();
      return MaxTokensOut(TextOf(content), serverTools, imagesAcc);
    }

    /** The final step, its audit row and its billing are one transaction. */
    method FinalizeAssistant(t: Turn, content: seq<Block>) returns (out: Outcome)
      requires db.Valid() && db.log != []
      modifies Objects()
      ensures db.Valid() && fresh(Objects() - old(Objects()))
      ensures Halt(Current(), out) == Finalize(t, old(Current()), content)
    {
      hide Consume, Engine.Rollback, TextOf, UnitOfWork.Valid, UnitOfWork.Rows, UnitOfWork.Account;
      db.AddStep(t.id, Assistant(content, false));
      db.RecordFinal(t.id, t.plan);
      if t.plan.DebitCredit? {
        var v := db.Debit(Uuid(t.id), 1);
        if v.Insufficient? {
          db.Rollback();
          return Blocked(Policy.CreditsEmpty);
        }
        if v.Conflict? { return Raised(ConflictError); }
      } else if t.plan.SpendTrial? {
        var _ := db.MarkTrialUsed();
      }
      db.Commit();
      return AssistantMessageOut(TextOf(content), serverTools, imagesAcc);
    }

    method HandleAuthRejected(t: Turn) returns (out: Outcome)
      requires db.Valid()
      modifies Objects()
      ensures db.Valid() && fresh(Objects() - old(Objects()))
      ensures Halt(Current(), out) == Engine.HandleAuthRejected(t, old(Current()))
    {
      hide UnitOfWork.Valid, UnitOfWork.Rows, UnitOfWork.Account;
      if !t.mode.Byok? { return Raised(AuthError); }
      db.ExpireKey();
      db.Commit();
      return Blocked(Policy.ByokInvalid);
    }

    /** `_build_messages`: a new list, one message per step. */
    method BuildMessages() returns (messages: seq<Message>)
      ensures messages == Build(db.Rows().steps)
    {
      var steps := db.Rows().steps;
      messages := [];
      for i := 0 to |steps|
        invariant messages == Build(steps[..i])
      {
        assert steps[..i + 1] == steps[..i] + [steps[i]];
        match steps[i].body {
          case User(content, actionPrompt) =>
            if actionPrompt.Some? && actionPrompt.value != "" {
              messages := messages + [UserMessage(content + [Text(actionPrompt.value)])];
            } else {
              messages := messages + [UserMessage(content)];
            }
          case Assistant(content, _) => messages := messages + [AssistantMessage(content)];
          case Tool(call, provider, tool, result, error) =>
            messages := messages + [ToolMessage(call, provider, tool, result, error)];
        }
      }
      assert steps[..|steps|] == steps;
    }

    /** Commit, then one model call on the history. */
    method CreateMessage() returns (reply: Reply)
      requires db.Valid()
      modifies db
      ensures db.Valid() && Objects() == old(Objects())
      ensures reply == world.model(|old(db.sent)|, Build(old(db.Rows()).steps))
      ensures var u := Engine.Commit(old(db.State()));
              Current() == old(Current()).(unit := u.(sent := u.sent + [u.work.chat]))
    {
      hide Build, SameElsewhere;
      var messages := BuildMessages();
      db.Commit();
      db.Sending();
      reply := world.model(|db.sent| - 1, messages);
    }

    /** One turn of the loop: a model call, and what its stop reason asks for. */
    method GenerateRound(t: Turn) returns (halted: Option<Outcome>)
      requires db.Valid()
      modifies Objects()
      ensures db.Valid() && fresh(Objects() - old(Objects()))
      ensures AsFlow(Current(), halted) == Round(world, t, old(Current()))
    {
      hide Engine.HandleToolUse, Engine.HandleMaxTokens, Engine.HandleAuthRejected, Finalize, Build, ToolUses, TextOf;
      hide UnitOfWork.Valid, UnitOfWork.Rows, UnitOfWork.Account;
      var reply := CreateMessage();
      match reply {
        case Unavailable => return Some(Raised(UpstreamError));
        case AuthRejected =>
          var out := HandleAuthRejected(t);
          return Some(out);
        case Reply(stop, content) =>
          if stop.MaxTokens? {
            var out := HandleMaxTokens(t, content);
            return Some(out);
          }
          if stop.ToolUseStop? && ToolUses(content) != [] {
            halted := HandleToolUse(t, content);
            if halted.Some? { return; }
            db.Commit();
            if clientOuts != [] { return Some(ToolCallOut(TextOf(content), clientOuts, serverTools, imagesAcc)); }
            return None;
          }
          var out := FinalizeAssistant(t, content);
          return Some(out);
      }
    }

    /** `for _ in range(max_rounds + 1)`; running out of rounds is an error after a last commit. */
    method GenerateLoop(t: Turn) returns (out: Outcome)
      requires db.Valid()
      modifies Objects()
      ensures db.Valid() && fresh(Objects() - old(Objects()))
      ensures (Current(), out) == Loop(world, t, old(Current()), world.rounds + 1)
    {
      hide Round, SameElsewhere, UnitOfWork.Valid, UnitOfWork.State;
      for i := 0 to world.rounds + 1
        invariant db.Valid() && fresh(Objects() - old(Objects()))
        invariant Loop(world, t, old(Current()), world.rounds + 1) == Loop(world, t, Current(), world.rounds + 1 - i)
      {
        var halted := GenerateRound(t);
        if halted.Some? { return halted.value; }
      }
      db.Commit();
      return Raised(UpstreamError);
    }

    /** Policy check, billing plan, generation. */
    method Continue(turn: Id, mode: Policy.Mode, hasProject: bool) returns (out: Outcome)
      requires db.Valid() && Current() == Progress(db.State(), [], [], [])
      modifies Objects()
      ensures db.Valid() && fresh(Objects() - old(Objects()))
      ensures (Current(), out) == Engine.Continue(world, turn, mode, hasProject, old(db.State()))
    {
      var s := db.Account().PolicyState();
      var decision := Policy.Evaluate(s, mode);
      if decision.Block? { return Blocked(decision.reason); }
      if mode.Byok? && db.users.key.StoredKey? && !db.users.key.providerKnown {
        db.Commit();
        return Blocked(Policy.ByokInvalid);
      }
      out := GenerateLoop(Turn(turn, mode, Policy.BillingPlan(mode, s), hasProject));
    }

    method Run(s: Session, isNew: bool, r: RunRequest) returns (out: Outcome)
      requires db.Valid() && Current() == Progress(db.State(), [], [], []) && (db.temporary ==> isNew)
      modifies Objects()
      ensures db.Valid() && fresh(Objects() - old(Objects()))
      ensures (Current(), out) == RunTurn(world, s, isNew, r, old(db.State()))
    {
      hide Engine.Continue, Truncate, UnitOfWork.Valid, UnitOfWork.Rows, UnitOfWork.Account;
      var turn := db.FreshId();
      if r.edit.Some? {
        if isNew { return Raised(MessageNotFound); }
        var deleted := db.TruncateFromMessageStep(r.edit.value);
        if !deleted { return Raised(MessageNotFound); }
      }
      db.AddStep(turn, User(r.content, r.actionPrompt));
      out := Continue(turn, s.mode, s.hasProject);
    }

    /** Every item must name a call of the session, all of one turn. */
    method ResolveItems(items: seq<ResultItem>) returns (turn: Option<Id>, error: Error)
      ensures (turn, error) == Resolve(db.Rows(), items, None)
    {
      turn := None;
      for i := 0 to |items|
        invariant Resolve(db.Rows(), items, None) == Resolve(db.Rows(), items[i..], turn)
      {
        assert items[i..][0] == items[i] && items[i..][1..] == items[i + 1..];
        if items[i].call !in db.Rows().calls { return None, NotFound; }
        var own := db.Rows().calls[items[i].call].turn;
        if turn.Some? && turn.value != own { return None, ValidationError; }
        turn := Some(own);
      }
      return turn, ValidationError;
    }

    method ToolResult(s: Session, items: seq<ResultItem>) returns (out: Outcome)
      requires db.Valid() && Current() == Progress(db.State(), [], [], []) && !db.temporary
      modifies Objects()
      ensures db.Valid() && fresh(Objects() - old(Objects()))
      ensures (Current(), out) == ToolResultTurn(world, s, items, old(db.State()))
    {
      hide Engine.Continue, NextStepAfter, PendingClient, UnitOfWork.Valid, UnitOfWork.Rows, UnitOfWork.Account;
      var found, error := ResolveItems(items);
      if found.None? { return Raised(error); }
      var turn := found.value;
      ghost var rows := db.Rows();
      for i := 0 to |items|
        invariant db.Valid() && Objects() == old(Objects())
        invariant ApplyResults(rows, items) == ApplyResults(db.Rows(), items[i..])
        invariant Current() == old(Current()).(unit := SetChat(old(db.State()), db.Rows()))
        invariant rows.calls.Keys <= db.Rows().calls.Keys
      {
        assert items[i..][0] == items[i] && items[i..][1..] == items[i + 1..];
        assert items[i] in items;
        if db.Rows().calls[items[i].call].status.Pending? {
          db.ApplyToolResult(items[i].call, items[i].result, items[i].error);
        }
      }
      var pending := PendingClient(world, db.Rows(), turn);
      if pending != {} {
        db.Commit();
        return Awaiting(pending);
      }
      var saved := db.NextStepAfter(turn, items[0].call);
      if saved.Some? { return Replay(TextOf(saved.value.body.content)); }
      out := Continue(turn, s.mode, s.hasProject);
    }

    /** `session_scope` around a request: commit after a normal return, roll back after an exception. */
    method Close(out: Outcome)
      requires db.Valid()
      modifies Objects()
      ensures db.Valid() && fresh(Objects() - old(Objects()))
      ensures (Current(), out) == Finish((old(Current()), out))
    {
      if !out.Raised? {
        db.Commit();
      } else if db.log != [] {
        db.Rollback();
      }
    }
  }

  /** The chat tables: the rows of every session. */
  function Tables(sessions: map<Id, Session>): map<Id, Chat> { map id | id in sessions :: sessions[id].chat }

  /** The sessions with these rows. */
  function Reload(sessions: map<Id, Session>, chats: map<Id, Chat>): map<Id, Session> {
    map id | id in sessions :: sessions[id].(chat := RowsOf(chats, id))
  }

  lemma {:induction false} Reloaded(sessions: map<Id, Session>)
    ensures Reload(sessions, Tables(sessions)) == sessions
  {
  }

  /** What the tables hold after a stored request is what its last commit saved. */
  lemma {:induction false} ReloadedOne(sessions: map<Id, Session>, id: Id, s: Session, chats: map<Id, Chat>)
    requires SameElsewhere(chats, Tables(sessions), id)
    ensures Reload(sessions[id := s], chats) == sessions[id := s.(chat := RowsOf(chats, id))]
  {
  }

  /** A stored request ends: its session exists as soon as something was committed. */
  method Stored(db: Database, id: Id, s: Session, uow: UnitOfWork, out: Outcome) returns (after: Database, trace: Trace)
    requires uow.Valid() && !uow.temporary && uow.session == id && uow.begun == Tables(db.sessions)
    ensures after == Install(db, id, s, old(uow.State())) && trace == Trace(out, uow.log, uow.sent)
  {
    Reloaded(db.sessions);
    ReloadedOne(db.sessions, id, s, uow.committed);
    if uow.log == [] {
      after := Database(Reload(db.sessions, uow.committed), db.account, uow.next);
    } else {
      after := Database(Reload(db.sessions[id := s], uow.committed), uow.log[|uow.log| - 1].account, uow.next);
    }
    trace := Trace(out, uow.log, uow.sent);
  }

  /** The tables hold the rows of the target session: none, if it is new. */
  lemma {:induction false} TargetRows(db: Database, r: Request)
    requires r.Run? && db.next !in db.sessions
    ensures RowsOf(Tables(db.sessions), Target(db, r).0) == Target(db, r).1.chat
  {
  }

  lemma {:induction false} RunIs(w: World, db: Database, r: Request)
    requires r.Run?
    ensures var (id, s, isNew) := Target(db, r);
            var u := Unit(Store(s.chat, db.account), [], if isNew then db.next + 1 else db.next, [], false);
            var (p, out) := Finish(RunTurn(w, s, isNew, r.request, u));
            Exec(w, db, r) == (Install(db, id, s, p.unit), Trace(out, p.unit.log, p.unit.sent))
  {
    hide RunTurn, Finish, Install;
  }

  /** What a temporary request leaves of the user's data. */
  function Discard(db: Database, u: Unit): Database {
    db.(account := if u.log == [] then db.account else u.log[|u.log| - 1].account, next := u.next)
  }

  lemma {:induction false} TemporaryIs(w: World, db: Database, r: Request)
    requires r.TemporaryRun?
    ensures var chat := Chat(Seed(r.transcript, db.next), map[]);
            var u := Unit(Store(chat, db.account), [], db.next + |chat.steps|, [], true);
            var (p, out) := Finish(RunTurn(w, Session(chat, r.mode, false), true, r.request, u));
            Exec(w, db, r) == (Discard(db, p.unit), Trace(out, p.unit.log, p.unit.sent))
  {
    hide RunTurn, Finish;
  }

  /** A run inside its transaction. */
  method RunIn(uow: UnitOfWork, world: World, s: Session, isNew: bool, q: RunRequest) returns (out: Outcome)
    requires uow.Valid() && (uow.temporary ==> isNew)
    modifies uow.Objects()
    ensures uow.Valid()
    ensures var (p, o) := Finish(RunTurn(world, s, isNew, q, old(uow.State()))); uow.State() == p.unit && out == o
  {
    hide RunTurn, Finish, UnitOfWork.Valid, UnitOfWork.Rows, UnitOfWork.Account;
    var chat := new ChatOrchestrator(uow, world);
    out := chat.Run(s, isNew, q);
    chat.Close(out);
  }

  method ServeRun(world: World, db: Database, r: Request) returns (after: Database, trace: Trace)
    requires r.Run? && db.next !in db.sessions
    ensures (after, trace) == Exec(world, db, r)
  {
    hide Exec, RunTurn, Finish, Install, Tables, UnitOfWork.Rows, UnitOfWork.Account, UnitOfWork.Valid;
    RunIs(world, db, r);
    assert RowsOf(Tables(db.sessions), Target(db, r).0) == Target(db, r).1.chat by { TargetRows(db, r); }
    var (id, s, isNew) := Target(db, r);
    var uow := new UnitOfWork(Tables(db.sessions), id, [], db.account, if isNew then db.next + 1 else db.next, false);
    var out := RunIn(uow, world, s, isNew, r.request);
    after, trace := Stored(db, id, s, uow, out);
  }

  /** A temporary request ends: its memory is dropped, and the tables are read back as they are. */
  method Discarded(db: Database, uow: UnitOfWork, out: Outcome) returns (after: Database, trace: Trace)
    requires uow.Valid() && uow.temporary && uow.begun == Tables(db.sessions)
    ensures after == Discard(db, old(uow.State())) && trace == Trace(out, uow.log, uow.sent)
    ensures after.sessions == db.sessions && uow.repo.chats == Tables(db.sessions)
  {
    Reloaded(db.sessions);
    var account := if uow.log == [] then db.account else uow.log[|uow.log| - 1].account;
    after := Database(Reload(db.sessions, uow.committed), account, uow.next);
    trace := Trace(out, uow.log, uow.sent);
  }

  /** A temporary run: its rows are in memory. */
  method ServeTemporary(world: World, db: Database, r: Request) returns (after: Database, trace: Trace)
    requires r.TemporaryRun?
    ensures (after, trace) == Exec(world, db, r) && after.sessions == db.sessions
  {
    hide Exec, RunTurn, Finish, Tables, Seed, Discard, UnitOfWork.Valid, UnitOfWork.Rows, UnitOfWork.Account;
    TemporaryIs(world, db, r);
    var seeded := Chat(Seed(r.transcript, db.next), map[]);
    var uow := new UnitOfWork(Tables(db.sessions), db.next, seeded.steps, db.account, db.next + |seeded.steps|, true);
    var out := RunIn(uow, world, Session(seeded, r.mode, false), true, r.request);
    after, trace := Discarded(db, uow, out);
  }

  method ServeResult(world: World, db: Database, r: Request) returns (after: Database, trace: Trace)
    requires r.ToolResult? && r.session in db.sessions
    ensures (after, trace) == Exec(world, db, r)
  {
    hide ToolResultTurn, Finish, Install, SameElsewhere;
    var s := db.sessions[r.session];
    var uow := new UnitOfWork(Tables(db.sessions), r.session, [], db.account, db.next, false);
    var chat := new ChatOrchestrator(uow, world);
    var out := chat.ToolResult(s, r.items);
    chat.Close(out);
    after, trace := Stored(db, r.session, s, uow, out);
  }

  /** A chat request from end to end: open a unit of work, run the orchestrator, close the transaction,
      and read the database back from what the last commit saved in the tables. A new session gets a
      fresh id. */
  method ServeChat(world: World, db: Database, r: Request) returns (after: Database, trace: Trace)
    requires r.Run? || r.TemporaryRun? || (r.ToolResult? && r.session in db.sessions)
    requires db.next !in db.sessions
    ensures (after, trace) == Exec(world, db, r)
  {
    match r {
      case Run(_, _, _, _, _) => after, trace := ServeRun(world, db, r);
      case TemporaryRun(_, _, _) => after, trace := ServeTemporary(world, db, r);
      case ToolResult(_, _) => after, trace := ServeResult(world, db, r);
    }
  }
}
