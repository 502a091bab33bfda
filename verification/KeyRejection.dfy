/** The user's own key: which requests mark it as expired, and what a marked key does to the next one. */
module KeyRejection {
  import opened Wallet
  import opened Records
  import opened Repository
  import opened Engine
  import opened Growth
  import opened Runs
  import opened Responses
  import opened Billing
  import opened Replays
  import opened ToolOutcomes
  import opened Stops
  import Policy

  predicate SameKey(a: Account, b: Account) { b.key == a.key && b.subscription == a.subscription }

  /** The same account as far as access goes, but for the status of a stored key. */
  predicate Marked(a: Account, b: Account) {
    && b.subscription == a.subscription
    && (a.key.NoKey? <==> b.key.NoKey?)
    && (a.key.StoredKey? ==> b.key == a.key.(status := Policy.KeyExpired))
  }

  ghost predicate Untouched(a: Account, u: Unit) {
    SameKey(a, u.work.account) && forall i :: 0 <= i < |u.log| ==> SameKey(a, u.log[i].account)
  }

  ghost predicate Rejected(a: Account, u: Unit) {
    && u.log != [] && u.log[|u.log| - 1] == u.work && Marked(a, u.work.account)
    && forall i :: 0 <= i < |u.log| - 1 ==> SameKey(a, u.log[i].account)
  }

  /** A generation leaves key and subscription alone unless it ends with the rejection of the key. */
  ghost predicate KeyFollows(a: Account, mode: Policy.Mode, u: Unit, out: Outcome) {
    if out == Blocked(Policy.ByokInvalid) then mode.Byok? && Rejected(a, u) else Untouched(a, u)
  }

  ghost predicate FlowKeeps(a: Account, f: Flow) {
    Untouched(a, f.p.unit) && (f.Halt? ==> f.out != Blocked(Policy.ByokInvalid))
  }

  lemma {:induction false} BlockKeepsKey(w: World, t: Turn, a: Account, p: Progress, b: Block)
    requires b.ToolUse? && p.unit.log != [] && Untouched(a, p.unit)
    ensures FlowKeeps(a, HandleBlock(w, t, p, b))
  {
    hide Answer, Consume;
  }

  lemma {:induction false} BlocksKeepKey(w: World, t: Turn, a: Account, p: Progress, uses: seq<Block>)
    requires p.unit.log != [] && Untouched(a, p.unit) && forall b :: b in uses ==> b.ToolUse?
    ensures FlowKeeps(a, HandleBlocks(w, t, p, uses))
    decreases |uses|
  {
    hide HandleBlock, Untouched;
    if uses != [] {
      BlockFrame(w, t, p, uses[0]);
      BlockKeepsKey(w, t, a, p, uses[0]);
      match HandleBlock(w, t, p, uses[0]) {
        case Halt(_, _) =>
        case More(q) => BlocksKeepKey(w, t, a, q, uses[1..]);
      }
    }
  }

  lemma {:induction false} FinalizeKeepsKey(t: Turn, a: Account, p: Progress, content: seq<Block>)
    requires p.unit.log != [] && Untouched(a, p.unit)
    ensures FlowKeeps(a, Finalize(t, p, content))
  {
    hide Consume, TextOf;
  }

  lemma {:induction false} CommitKeepsKey(a: Account, u: Unit)
    requires Untouched(a, u)
    ensures Untouched(a, Commit(u))
  {
  }

  lemma {:induction false} RoundKeepsKey(w: World, t: Turn, a: Account, p: Progress)
    requires Untouched(a, p.unit)
    ensures match Round(w, t, p)
            case More(q) => Untouched(a, q.unit)
            case Halt(q, out) => KeyFollows(a, t.mode, q.unit, out)
  {
    hide HandleBlocks, Finalize, Build, ToolUses, TextOf;
    CommitKeepsKey(a, p.unit);
    var u := Commit(p.unit);
    var q := p.(unit := u.(sent := u.sent + [u.work.chat]));
    match w.model(|u.sent|, Build(u.work.chat.steps))
    case Unavailable | AuthRejected =>
    case Reply(stop, content) =>
      FinalizeKeepsKey(t, a, q, content);
      var x := q.(unit := Write(q.unit, t.id, Assistant(content, false)), clients := []);
      BlocksKeepKey(w, t, a, x, ToolUses(content));
      var f := HandleBlocks(w, t, x, ToolUses(content));
      if f.More? { CommitKeepsKey(a, f.p.unit); }
  }

  lemma {:induction false} LoopKeepsKey(w: World, t: Turn, a: Account, p: Progress, n: nat)
    requires Untouched(a, p.unit)
    ensures var (q, out) := Loop(w, t, p, n); KeyFollows(a, t.mode, q.unit, out)
    decreases n
  {
    hide Round, Untouched, Rejected;
    if n == 0 {
      CommitKeepsKey(a, p.unit);
    } else {
      RoundKeepsKey(w, t, a, p);
      match Round(w, t, p) {
        case Halt(_, _) =>
        case More(q) => LoopKeepsKey(w, t, a, q, n - 1);
      }
    }
  }

  /** The last model call of a request was answered with a rejection of the user's own key. */
  ghost predicate KeyRejected(w: World, db: Database, r: Request) {
    var sent := Exec(w, db, r).1.sent;
    ModeOf(db, r) == Some(Policy.Byok) && sent != [] && Answered(w, sent, |sent| - 1).AuthRejected?
  }

  lemma {:induction false} ContinueKeepsKey(w: World, turn: Id, mode: Policy.Mode, hasProject: bool, u: Unit)
    requires u.log == [] && u.sent == []
    ensures var (p, out) := Finish(Continue(w, turn, mode, hasProject, u));
            var a, log := u.work.account, p.unit.log;
            && (if out == Blocked(Policy.ByokInvalid) && p.unit.sent != []
                then log != [] && Marked(a, log[|log| - 1].account)
                else forall i :: 0 <= i < |log| ==> SameKey(a, log[i].account))
            && forall i :: 0 <= i < |log| ==> SameKey(a, log[i].account) || Marked(a, log[i].account)
  {
    hide Loop, Marked, SameKey;
    var t := Turn(turn, mode, Policy.BillingPlan(mode, u.work.account.PolicyState()), hasProject);
    AlikeKey(u.work.account);
    assert Untouched(u.work.account, u);
    LoopKeepsKey(w, t, u.work.account, Progress(u, [], [], []), w.rounds + 1);
    if Policy.Evaluate(u.work.account.PolicyState(), mode).Allow? {
      LoopSends(w, t, Progress(u, [], [], []), w.rounds + 1);
    }
  }

  lemma {:induction false} AlikeKey(a: Account)
    ensures SameKey(a, a)
  {
  }

  lemma {:induction false} LoopSends(w: World, t: Turn, p: Progress, n: nat)
    requires n > 0
    ensures Loop(w, t, p, n).0.unit.sent != []
  {
    hide Round;
    RoundSends(w, t, p);
    match Round(w, t, p) {
      case Halt(_, _) =>
      case More(q) => SentBound(w, t, q, n - 1);
    }
  }

  lemma {:induction false} InstalledKey(w: World, db: Database, r: Request)
    requires BaseOf(w, db, r).Some?
    ensures var (after, trace) := Exec(w, db, r);
            after.account == if trace.log == [] then db.account else trace.log[|trace.log| - 1].account
  {
    hide Continue, Finish, Truncate, ApplyResults, PendingClient, NextStepAfter;
    if !r.TemporaryRun? { GenerationIs(w, db, r); }
  }

  lemma {:induction false} RejectionStops(w: World, db: Database, r: Request, t: Turn, after: int)
    requires ModeOf(db, r) == Some(t.mode)
    requires Explained(w, db.account, t, r.TemporaryRun?, after, Exec(w, db, r).1)
    ensures var trace := Exec(w, db, r).1;
            KeyRejected(w, db, r) <==> trace.out == Blocked(Policy.ByokInvalid) && trace.sent != []
    ensures Exec(w, db, r).1.sent != [] ==> forall reason :: !RefusedFor(db.account, t.mode, reason)
  {
    hide Exec, ModeOf, RefusedFor, MadeCount, Made, Misplaced, Malformed, NoClient;
  }

  lemma {:induction false} RejectionExplained(cost: int, w: World, db: Database, r: Request)
    requires DbInv(cost, db) && w.cost == cost && BaseOf(w, db, r).Some?
    ensures ModeOf(db, r).Some?
    ensures var trace := Exec(w, db, r).1;
            KeyRejected(w, db, r) <==> trace.out == Blocked(Policy.ByokInvalid) && trace.sent != []
    ensures Exec(w, db, r).1.sent != [] ==> forall reason :: !RefusedFor(db.account, ModeOf(db, r).value, reason)
  {
    hide DbInv, Exec, BaseOf, Explained, KeyRejected, RefusedFor;
    OutcomeExplained(cost, w, db, r);
    var trace := Exec(w, db, r).1;
    var mode := ModeOf(db, r).value;
    var plan := Policy.BillingPlan(mode, db.account.PolicyState());
    var t := Turn(BaseOf(w, db, r).value.turn, mode, plan, InProject(db, r));
    RejectionStops(w, db, r, t, if trace.log == [] then 0 else trace.log[|trace.log| - 1].account.purse.balance);
  }

  /** Only a model call that was rejected for the user's own key marks it, as expired and keeping the rest of
      it; every other generation, and every commit before, leaves key and subscription as they were. */
  lemma {:induction false} OnlyRejectionMarks(cost: int, w: World, db: Database, r: Request)
    requires DbInv(cost, db) && w.cost == cost && BaseOf(w, db, r).Some?
    ensures var (after, trace) := Exec(w, db, r);
            && (if KeyRejected(w, db, r) then trace.out == Blocked(Policy.ByokInvalid) && Marked(db.account, after.account)
                else SameKey(db.account, after.account))
            && forall i :: 0 <= i < |trace.log| ==>
                 SameKey(db.account, trace.log[i].account)
                 || (KeyRejected(w, db, r) && Marked(db.account, trace.log[i].account))
  {
    hide DbInv, Exec, BaseOf, Continue, Finish, Marked, SameKey, Explained, KeyRejected;
    RejectionExplained(cost, w, db, r);
    SameBaseAccount(w, db, r);
    InstalledKey(w, db, r);
    AlikeKey(db.account);
    var b := BaseOf(w, db, r).value;
    if r.TemporaryRun? {
      TemporaryStart(w, db, r);
      ContinueKeepsKey(w, b.turn, r.mode, false, Unit(b.store, [], b.next, [], true));
    } else {
      BaseIds(cost, w, db, r);
      GenerationIs(w, db, r);
      var s := Place(db, r).1;
      ContinueKeepsKey(w, b.turn, s.mode, s.hasProject, Opening(b));
    }
  }

  /** A key that was just rejected blocks the next request under it before any model call, whatever session
      or temporary chat it comes from, until the key is replaced. */
  lemma {:induction false} RejectedKeyBlocks(cost: int, w: World, db: Database, r: Request, v: World, next: Request)
    requires DbInv(cost, db) && w.cost == cost && v.cost == cost && BaseOf(w, db, r).Some? && KeyRejected(w, db, r)
    requires var after := Exec(w, db, r).0; BaseOf(v, after, next).Some? && ModeOf(after, next) == Some(Policy.Byok)
    ensures var (last, trace) := Exec(v, Exec(w, db, r).0, next);
            trace.out == Blocked(Policy.ByokInvalid) && trace.sent == []
                && SameKey(Exec(w, db, r).0.account, last.account)
  {
    hide DbInv, Exec, BaseOf, StoppedBy;
    RejectionExplained(cost, w, db, r);
    OnlyRejectionMarks(cost, w, db, r);
    assert !RefusedFor(db.account, Policy.Byok, Policy.SubscriptionExpired);
    assert !RefusedFor(db.account, Policy.Byok, Policy.SubscriptionRequired);
    assert !RefusedFor(db.account, Policy.Byok, Policy.ByokDisabled);
    ExecKeeps(cost, w, db, r);
    var after := Exec(w, db, r).0;
    OutcomeExplained(cost, v, after, next);
    OnlyRejectionMarks(cost, v, after, next);
    assert RefusedFor(after.account, Policy.Byok, Policy.ByokInvalid);
  }
}
