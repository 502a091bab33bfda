/** A final step is recorded, and the trial spent, by exactly the requests that answer with it. */
module Billing {
  import opened Wallet
  import opened Records
  import opened Engine
  import opened Growth
  import opened Repository
  import opened Money
  import opened Runs
  import opened Responses
  import Policy

  predicate Unpaid(a: Account, b: Account) { b.finals == a.finals && b.trialUsed == a.trialUsed }

  ghost predicate Quiet(a: Account, log: seq<Store>) {
    forall i :: 0 <= i < |log| ==> Unpaid(a, log[i].account)
  }

  predicate Paid(a: Account, b: Account, turn: Id, plan: Policy.Plan) {
    b.finals == a.finals + [Final(turn, plan)] && b.trialUsed == (a.trialUsed || plan.SpendTrial?)
  }

  /** Only an answer adds a final step, and it adds one; nothing before it did. A generation never
      replays. */
  ghost predicate PaysOnce(a: Account, t: Turn, p: Progress, out: Outcome) {
    match out
    case AssistantMessageOut(_, _, _) =>
      && p.unit.log != [] && p.unit.log[|p.unit.log| - 1] == p.unit.work
      && Paid(a, p.unit.work.account, t.id, t.plan)
      && Quiet(a, p.unit.log[..|p.unit.log| - 1])
    case Raised(_) => Quiet(a, p.unit.log)
    case Replay(_) | Awaiting(_) => false
    case _ => Quiet(a, p.unit.log) && Unpaid(a, p.unit.work.account)
  }

  ghost predicate FlowPays(a: Account, t: Turn, f: Flow) {
    match f
    case More(p) => Quiet(a, p.unit.log) && Unpaid(a, p.unit.work.account)
    case Halt(p, out) => PaysOnce(a, t, p, out)
  }

  lemma {:induction false} ImagePays(w: World, t: Turn, a: Account, p: Progress, id: Id, provider: string)
    requires Quiet(a, p.unit.log) && Unpaid(a, p.unit.work.account) && p.unit.log != [] && id in p.unit.work.chat.calls
    ensures FlowPays(a, t, ExecuteImage(w, t, p, id, provider))
    ensures ExecuteImage(w, t, p, id, provider).Halt? ==> !ExecuteImage(w, t, p, id, provider).out.AssistantMessageOut?
  {
    hide Answer, Consume;
  }

  lemma {:induction false} BlockPays(w: World, t: Turn, a: Account, p: Progress, block: Block)
    requires Quiet(a, p.unit.log) && Unpaid(a, p.unit.work.account) && p.unit.log != [] && block.ToolUse?
    ensures FlowPays(a, t, HandleBlock(w, t, p, block))
    ensures HandleBlock(w, t, p, block).Halt? ==> !HandleBlock(w, t, p, block).out.AssistantMessageOut?
  {
    hide Answer, ExecuteImage;
    var checked := w.validate(block.name, block.input);
    var args := if checked.Some? then checked.value else block.input;
    if w.kind(block.name).Image? {
      ImagePays(w, t, a, p.(unit := OpenCall(p.unit, t.id, block.name, args, block.id)), p.unit.next, block.id);
    }
  }

  lemma {:induction false} BlocksPay(w: World, t: Turn, a: Account, p: Progress, uses: seq<Block>)
    requires Quiet(a, p.unit.log) && Unpaid(a, p.unit.work.account) && p.unit.log != []
    requires forall x :: x in uses ==> x.ToolUse?
    ensures FlowPays(a, t, HandleBlocks(w, t, p, uses))
    decreases |uses|
  {
    hide HandleBlock, Unpaid, PaysOnce;
    if uses != [] {
      BlockFrame(w, t, p, uses[0]);
      BlockPays(w, t, a, p, uses[0]);
      match HandleBlock(w, t, p, uses[0]) {
        case Halt(_, _) =>
        case More(q) => BlocksPay(w, t, a, q, uses[1..]);
      }
    }
  }

  lemma {:induction false} FinalizePays(t: Turn, a: Account, p: Progress, content: seq<Block>)
    requires Quiet(a, p.unit.log) && Unpaid(a, p.unit.work.account) && p.unit.log != []
    ensures FlowPays(a, t, Finalize(t, p, content))
  {
    hide Consume;
    var f := Finalize(t, p, content);
    assert Commit(p.unit).log[..|p.unit.log|] == p.unit.log;
    if f.p.unit.log != p.unit.log { assert f.p.unit.log[..|f.p.unit.log| - 1] == p.unit.log; }
  }

  lemma {:induction false} RoundPays(w: World, t: Turn, a: Account, p: Progress)
    requires Quiet(a, p.unit.log) && Unpaid(a, p.unit.work.account)
    ensures FlowPays(a, t, Round(w, t, p))
  {
    hide HandleBlocks, Finalize;
    var u := Commit(p.unit);
    var q := p.(unit := u.(sent := u.sent + [u.work.chat]));
    match w.model(|u.sent|, Build(u.work.chat.steps))
    case Unavailable =>
    case AuthRejected =>
    case Reply(stop, content) =>
      if stop.MaxTokens? {
      } else if stop.ToolUseStop? && ToolUses(content) != [] {
        BlocksPay(w, t, a, q.(unit := Write(q.unit, t.id, Assistant(content, false)), clients := []),
                  ToolUses(content));
      } else {
        FinalizePays(t, a, q, content);
      }
  }

  lemma {:induction false} LoopPays(w: World, t: Turn, a: Account, p: Progress, n: nat)
    requires Quiet(a, p.unit.log) && Unpaid(a, p.unit.work.account)
    ensures var (q, out) := Loop(w, t, p, n); PaysOnce(a, t, q, out)
    decreases n
  {
    hide Round;
    if n > 0 {
      RoundPays(w, t, a, p);
      match Round(w, t, p) {
        case Halt(_, _) =>
        case More(q) => LoopPays(w, t, a, q, n - 1);
      }
    }
  }

  /** After the request: one final step more exactly when it answered, and then the trial is spent
      exactly under the trial plan. */
  ghost predicate Settled(a: Account, turn: Id, plan: Policy.Plan, log: seq<Store>, out: Outcome) {
    if out.AssistantMessageOut?
    then log != [] && Paid(a, log[|log| - 1].account, turn, plan)
    else Quiet(a, log)
  }

  lemma {:induction false} ContinueSettles(w: World, turn: Id, mode: Policy.Mode, hasProject: bool, u: Unit)
    requires u.log == []
    ensures var (p, out) := Finish(Continue(w, turn, mode, hasProject, u));
            && Settled(u.work.account, turn, Policy.BillingPlan(mode, u.work.account.PolicyState()), p.unit.log, out)
            && !out.Replay? && !out.Awaiting?
  {
    hide Loop;
    var t := Turn(turn, mode, Policy.BillingPlan(mode, u.work.account.PolicyState()), hasProject);
    LoopPays(w, t, u.work.account, Progress(u, [], [], []), w.rounds + 1);
  }

  /** A run that is cut off, blocked, fails or hands off to the client neither records a final step
      nor spends the trial; one that answers records one, under the plan of the policy check. */
  lemma {:induction false} RunSettles(w: World, db: Database, r: Request)
    requires r.Run?
    ensures var (after, trace) := Exec(w, db, r);
            var (id, s, isNew) := Target(db, r);
            Settled(db.account, if isNew then db.next + 1 else db.next,
                    Policy.BillingPlan(s.mode, db.account.PolicyState()), trace.log, trace.out)
  {
    hide Continue, Truncate, Settled;
    var (id, s, isNew) := Target(db, r);
    var turn := if isNew then db.next + 1 else db.next;
    var u := Unit(Store(s.chat, db.account), [], turn + 1, [], false);
    var chat := if r.request.edit.None? then Some(s.chat)
                else if isNew then None
                else Truncate(s.chat, r.request.edit.value);
    if chat.Some? {
      ContinueSettles(w, turn, s.mode, s.hasProject,
                      Write(SetChat(u, chat.value), turn, User(r.request.content, r.request.actionPrompt)));
    } else {
      NothingSettles(db.account, turn, Policy.BillingPlan(s.mode, db.account.PolicyState()), Raised(MessageNotFound));
    }
  }

  lemma {:induction false} NothingSettles(a: Account, turn: Id, plan: Policy.Plan, out: Outcome)
    requires !out.AssistantMessageOut?
    ensures Settled(a, turn, plan, [], out)
  {
  }

  /** The same for a continuation after tool results: it is billed under the plan of its own policy
      check, so a turn left at a client hand-off spends the trial only if it is still unused. */
  lemma {:induction false} ToolResultSettles(w: World, db: Database, r: Request)
    requires r.ToolResult? && r.session in db.sessions && r.items != []
    ensures var (after, trace) := Exec(w, db, r);
            var s := db.sessions[r.session];
            var plan := Policy.BillingPlan(s.mode, db.account.PolicyState());
            && (trace.out.AssistantMessageOut? ==> r.items[0].call in s.chat.calls)
            && (r.items[0].call in s.chat.calls ==>
                  Settled(db.account, s.chat.calls[r.items[0].call].turn, plan, trace.log, trace.out))
            && (r.items[0].call !in s.chat.calls ==> trace.log == [])
  {
    hide Continue, ApplyResults, NextStepAfter, PendingClient, Settled;
    var s := db.sessions[r.session];
    var u := Unit(Store(s.chat, db.account), [], db.next, [], false);
    var (turn, error) := Resolve(s.chat, r.items, None);
    var plan := Policy.BillingPlan(s.mode, db.account.PolicyState());
    if turn.Some? {
      var v := SetChat(u, ApplyResults(s.chat, r.items));
      ContinueSettles(w, turn.value, s.mode, s.hasProject, v);
      OneCommitSettles(v, turn.value, plan);
    } else if r.items[0].call in s.chat.calls {
      NothingSettles(db.account, s.chat.calls[r.items[0].call].turn, plan, Raised(error));
    }
  }

  lemma {:induction false} OneCommitSettles(u: Unit, turn: Id, plan: Policy.Plan)
    requires u.log == []
    ensures forall out: Outcome :: !out.AssistantMessageOut? ==>
              Settled(u.work.account, turn, plan, Commit(u).log, out)
                  && Settled(u.work.account, turn, plan, Commit(Commit(u)).log, out)
  {
  }

  /** The same for a temporary run, which is billed like any other. */
  lemma {:induction false} TemporarySettles(w: World, db: Database, r: Request)
    requires r.TemporaryRun?
    ensures var trace := Exec(w, db, r).1;
            Settled(db.account, db.next + |r.transcript|, Policy.BillingPlan(r.mode, db.account.PolicyState()),
                    trace.log, trace.out)
  {
    hide Continue, Settled;
    var turn := db.next + |r.transcript|;
    var chat := Chat(Seed(r.transcript, db.next), map[]);
    var u := Unit(Store(chat, db.account), [], turn + 1, [], true);
    if r.request.edit.None? {
      ContinueSettles(w, turn, r.mode, false, Write(u, turn, User(r.request.content, r.request.actionPrompt)));
    } else {
      NothingSettles(db.account, turn, Policy.BillingPlan(r.mode, db.account.PolicyState()), Raised(MessageNotFound));
    }
  }

  /** The mode a request generates in. */
  function ModeOf(db: Database, r: Request): Option<Policy.Mode> {
    match r
    case Run(_, _, _, _, _) => Some(Target(db, r).1.mode)
    case TemporaryRun(_, mode, _) => Some(mode)
    case ToolResult(id, _) => if id in db.sessions then Some(db.sessions[id].mode) else None
    case _ => None
  }

  /** Every request that gets to a generation settles under the plan of its policy check. */
  lemma {:induction false} GenerationSettles(w: World, db: Database, r: Request)
    requires BaseOf(w, db, r).Some? && ModeOf(db, r).Some?
    ensures var trace := Exec(w, db, r).1;
            Settled(db.account, BaseOf(w, db, r).value.turn,
                    Policy.BillingPlan(ModeOf(db, r).value, db.account.PolicyState()), trace.log, trace.out)
  {
    hide Exec, Settled, ApplyResults, NextStepAfter, PendingClient, Truncate, Resolve;
    match r
    case Run(_, _, _, _, _) => RunSettles(w, db, r);
    case TemporaryRun(_, _, _) => TemporarySettles(w, db, r);
    case ToolResult(id, items) =>
      var c := db.sessions[id].chat;
      assert items != [] && items[0].call in c.calls
          && Resolve(c, items, None).0.value == c.calls[items[0].call].turn by {
        if items != [] { assert items[0] in items; }
      }
      ToolResultSettles(w, db, r);
    case _ =>
  }

  lemma {:induction false} FinishAnswers(w: World, turn: Id, mode: Policy.Mode, hasProject: bool, u: Unit)
    requires Finish(Continue(w, turn, mode, hasProject, u)).1.AssistantMessageOut?
    ensures Policy.Evaluate(u.work.account.PolicyState(), mode).Allow?
  {
    hide Loop;
  }

  /** Only a request that passed the policy check answers. */
  lemma {:induction false} AnswerWasAllowed(w: World, db: Database, r: Request)
    requires Exec(w, db, r).1.out.AssistantMessageOut?
    ensures BaseOf(w, db, r).Some? && ModeOf(db, r).Some?
    ensures Policy.Evaluate(db.account.PolicyState(), ModeOf(db, r).value).Allow?
  {
    hide Continue, Finish, Exec, Truncate, ApplyResults, NextStepAfter, PendingClient;
    if BaseOf(w, db, r).None? { OthersSendNothing(w, db, r); }
    var b := BaseOf(w, db, r).value;
    if r.TemporaryRun? {
      TemporaryAllowed(w, db, r);
    } else if r.Run? || r.ToolResult? {
      GenerationIs(w, db, r);
      FinishAnswers(w, b.turn, Place(db, r).1.mode, Place(db, r).1.hasProject, Opening(b));
    }
  }

  lemma {:induction false} TemporaryAllowed(w: World, db: Database, r: Request)
    requires r.TemporaryRun? && r.request.edit.None? && Exec(w, db, r).1.out.AssistantMessageOut?
    ensures Policy.Evaluate(db.account.PolicyState(), r.mode).Allow?
  {
    hide Continue;
    var turn := db.next + |r.transcript|;
    var u := Unit(Store(Chat(Seed(r.transcript, db.next), map[]), db.account), [], turn + 1, [], true);
    FinishAnswers(w, turn, r.mode, false, Write(u, turn, User(r.request.content, r.request.actionPrompt)));
  }

  /** What pays for a final step of a credits-mode turn: the ledger holds its one-credit debit, or it
      took the trial. */
  ghost predicate PaidFor(a: Account, turn: Id) {
    || (Billed(a.finals, turn) && Find(a.purse.ledger, Uuid(turn)) == Some(Row(Uuid(turn), Debit, 1)))
    || (Final(turn, Policy.SpendTrial) in a.finals && a.trialUsed)
  }

  /** A final step on record under a plan that costs something has been paid for. */
  lemma {:induction false} RecordedIsPaid(cost: int, a: Account, next: Id, turn: Id, plan: Policy.Plan)
    requires AccountInv(cost, a, next) && Final(turn, plan) in a.finals && !plan.Free?
    ensures PaidFor(a, turn)
  {
    hide Sound, Conserved, Find, Keys;
    if plan.SpendTrial? { TrialCounted(a.finals, turn); }
  }

  lemma {:induction false} TrialCounted(finals: seq<Final>, turn: Id)
    requires Final(turn, Policy.SpendTrial) in finals
    ensures TrialFinals(finals) > 0
  {
    var n := |finals| - 1;
    if finals[n] != Final(turn, Policy.SpendTrial) {
      assert Final(turn, Policy.SpendTrial) in finals[..n];
      TrialCounted(finals[..n], turn);
    }
  }

  lemma {:induction false} LastCommitInstalled(w: World, db: Database, r: Request)
    requires (r.Run? || r.TemporaryRun? || r.ToolResult?) && Exec(w, db, r).1.log != []
    ensures var (after, trace) := Exec(w, db, r); after.account == trace.log[|trace.log| - 1].account
  {
    hide RunTurn, ToolResultTurn, Finish;
  }

  /** What a generation in credits mode answers is paid: a run, a temporary run and the continuation of a
      turn left at a hand-off leave an account that has paid for the turn, and if with the trial, this very
      request spent it. A replayed reply is another matter: see `Replays.ShownAnswerIsPaid`. */
  lemma {:induction false} CreditsAnswersArePaid(cost: int, w: World, db: Database, r: Request)
    requires DbInv(cost, db) && w.cost == cost && ModeOf(db, r) == Some(Policy.Credits)
    requires Exec(w, db, r).1.out.AssistantMessageOut?
    ensures var after := Exec(w, db, r).0;
            && BaseOf(w, db, r).Some?
            && PaidFor(after.account, BaseOf(w, db, r).value.turn)
            && (after.account.trialUsed != db.account.trialUsed <==>
                  after.account.finals[|after.account.finals| - 1] == Final(BaseOf(w, db, r).value.turn, Policy.SpendTrial))
  {
    hide Exec, DbInv, AccountInv, AccountGrew, PaidFor, BaseOf;
    var s := db.account.PolicyState();
    AnswerWasAllowed(w, db, r);
    GenerationSettles(w, db, r);
    Policy.AllowedPlan(s, Policy.Credits);
    ExecKeeps(cost, w, db, r);
    var (after, trace) := Exec(w, db, r);
    LastCommitInstalled(w, db, r);
    var plan := Policy.BillingPlan(Policy.Credits, s);
    var turn := BaseOf(w, db, r).value.turn;
    assert Commits(cost, db, after.next, trace.log[|trace.log| - 1]);
    assert after.account.finals[|db.account.finals|] == Final(turn, plan);
    RecordedIsPaid(cost, after.account, after.next, turn, plan);
  }
}
