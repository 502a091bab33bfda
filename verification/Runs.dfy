/** Any sequence of requests of one user: what holds in every state that was ever committed. */
module Runs {
  import opened Wallet
  import opened Records
  import opened Repository
  import opened Engine
  import opened Money
  import opened History
  import opened Growth
  import opened TurnSafety
  import Policy

  /** A request together with what the outside world answers while it runs. */
  datatype Event = Event(world: World, request: Request)

  function Play(db: Database, events: seq<Event>): Database {
    if events == [] then db
    else
      var last := events[|events| - 1];
      Exec(last.world, Play(db, events[..|events| - 1]), last.request).0
  }

  function TraceAt(db: Database, events: seq<Event>, i: nat): Trace
    requires i < |events|
  {
    Exec(events[i].world, Play(db, events[..i]), events[i].request).1
  }

  /** IMAGE_CREDITS_COST does not change during the run. */
  ghost predicate SameCost(cost: int, events: seq<Event>) {
    forall e :: e in events ==> e.world.cost == cost
  }

  /** A new user: an empty wallet, no session. */
  predicate Fresh(db: Database) {
    && db.sessions == map[] && db.next == 0
    && db.account.purse == Purse(0, []) && db.account.initiated == map[]
    && db.account.images == [] && db.account.finals == []
  }

  ghost predicate DbInv(cost: int, db: Database) {
    && AccountInv(cost, db.account, db.next)
    && (forall id :: id in db.sessions ==> id < db.next && ChatInv(db.sessions[id].chat, db.account.initiated, db.next))
  }

  /** What one committed state of a request must satisfy. */
  ghost predicate Commits(cost: int, db: Database, next: Id, s: Store) {
    && AccountInv(cost, s.account, next)
    && AccountGrew(db.account, s.account, db.next)
  }

  ghost predicate TraceInv(cost: int, db: Database, next: Id, log: seq<Store>, temporary: bool) {
    && db.next <= next
    && forall i :: 0 <= i < |log| ==>
         && Commits(cost, db, next, log[i])
         && (!temporary ==> ChatInv(log[i].chat, log[i].account.initiated, next))
  }

  /** Another session's rows while the user's ids and opened calls move on. */
  lemma {:induction false} OtherSession(c: Chat, a: Account, b: Account, next: Id, later: Id)
    requires ChatInv(c, a.initiated, next) && AccountGrew(a, b, next) && next <= later
    ensures ChatInv(c, b.initiated, later)
  {
    hide CallsHaveSteps, ResultMatches, ResultCount;
    forall k | k in c.calls ensures k < later && CallInv(c, b.initiated, k) {
      assert CallInv(c, a.initiated, k);
    }
    forall i | 0 <= i < |c.steps| ensures StepInv(c, b.initiated, later, c.steps[i]) {
      assert StepInv(c, a.initiated, next, c.steps[i]);
    }
  }

  lemma {:induction false} InstallKeeps(cost: int, db: Database, id: Id, s: Session, u: Unit)
    requires DbInv(cost, db) && TraceInv(cost, db, u.next, u.log, false)
    requires id in db.sessions || (id == db.next && id < u.next)
    ensures DbInv(cost, Install(db, id, s, u))
  {
    hide AccountInv, ChatInv, AccountGrew;
    var after := Install(db, id, s, u);
    if u.log == [] {
      NextGrows(cost, db.account, db.next, u.next);
      forall k | k in db.sessions ensures ChatInv(db.sessions[k].chat, db.account.initiated, u.next) {
        ChatLater(db.sessions[k].chat, db.account.initiated, db.next, u.next);
      }
    } else {
      var saved := u.log[|u.log| - 1];
      assert Commits(cost, db, u.next, saved);
      forall k | k in after.sessions
        ensures k < after.next && ChatInv(after.sessions[k].chat, saved.account.initiated, u.next)
      {
        if k != id { OtherSession(db.sessions[k].chat, db.account, saved.account, db.next, u.next); }
      }
    }
  }

  lemma {:induction false} GrewFrom(a: Account, b: Account, n: Id, m: Id)
    requires AccountGrew(a, b, m) && n <= m
    ensures AccountGrew(a, b, n)
  {
  }

  /** The account side of a generation's commits. */
  lemma {:induction false} GenerationTrace(cost: int, w: World, db: Database, turn: Id, mode: Policy.Mode,
                                           hasProject: bool, u: Unit)
    requires Starts(u) && UnitInv(w.cost, u) && Startable(u, turn) && w.cost == cost
    requires u.work.account == db.account && db.next <= u.next
    requires Grounded(Base(u.work, u.next, turn))
    ensures var p := Finish(Continue(w, turn, mode, hasProject, u)).0;
            TraceInv(cost, db, p.unit.next, p.unit.log, p.unit.temporary)
  {
    hide AccountInv, ChatInv, AccountGrew, ChatGrew, Continue, Finish, Startable, Grounded, Agrees, SentOk;
    GenerationKeeps(w, turn, mode, hasProject, u);
    ContinueGrew(w, turn, mode, hasProject, u);
    var p := Finish(Continue(w, turn, mode, hasProject, u)).0;
    forall i | 0 <= i < |p.unit.log| ensures Commits(cost, db, p.unit.next, p.unit.log[i]) {
      assert StoreInv(cost, p.unit.log[i], p.unit.next, p.unit.temporary);
      assert StoreGrew(Base(u.work, u.next, turn), p.unit.log[i], p.unit.next);
      GrewFrom(db.account, p.unit.log[i].account, db.next, u.next);
    }
  }

  lemma {:induction false} GroundedIf(cost: int, b: Base)
    requires AccountInv(cost, b.store.account, b.next)
    requires forall id :: id in b.store.chat.calls ==> id < b.next
    ensures Grounded(b)
  {
    IdsBelow(cost, b.store.account, b.next);
  }

  lemma {:induction false} CallsBelow(c: Chat, initiated: map<Id, Id>, next: Id)
    requires ChatInv(c, initiated, next)
    ensures forall id :: id in c.calls ==> id < next
  {
    hide StepInv, CallInv, CallsHaveSteps;
  }

  lemma {:induction false} RunTrace(cost: int, w: World, db: Database, s: Session, isNew: bool, r: RunRequest, u: Unit)
    requires Starts(u) && UnitInv(cost, u) && w.cost == cost && u.work.account == db.account && db.next <= u.next
    requires u.temporary ==> u.work.chat.calls == map[] && isNew
    ensures var p := Finish(RunTurn(w, s, isNew, r, u)).0;
            TraceInv(cost, db, p.unit.next, p.unit.log, u.temporary) && p.unit.next > u.next
                && p.unit.temporary == u.temporary
  {
    hide AccountInv, ChatInv, Continue, Truncate, Startable, AccountGrew, Grounded;
    var turn := u.next;
    var v := u.(next := turn + 1);
    var cut := if r.edit.None? then Some(v.work.chat) else if isNew then None else Truncate(v.work.chat, r.edit.value);
    if cut.Some? {
      if !u.temporary && r.edit.Some? { TruncateKeeps(u.work.chat, u.work.account.initiated, turn, r.edit.value); }
      var x := Write(SetChat(v, cut.value), turn, User(r.content, r.actionPrompt));
      AskKeeps(cost, v, cut.value, turn, User(r.content, r.actionPrompt));
      if !u.temporary { CallsBelow(x.work.chat, x.work.account.initiated, x.next); }
      GroundedIf(cost, Base(x.work, x.next, turn));
      GenerationTrace(cost, w, db, turn, s.mode, s.hasProject, x);
      ContinueNext(w, turn, s.mode, s.hasProject, x);
    }
  }

  /** A generation never hands ids back. */
  lemma {:induction false} ContinueNext(w: World, turn: Id, mode: Policy.Mode, hasProject: bool, u: Unit)
    requires Starts(u) && Grounded(Base(u.work, u.next, turn))
    ensures var p := Finish(Continue(w, turn, mode, hasProject, u)).0;
            u.next <= p.unit.next && p.unit.temporary == u.temporary
  {
    hide StoreGrew, SentOk, Agrees, Continue, Finish, Grounded;
    ContinueGrew(w, turn, mode, hasProject, u);
    ContinueSends(w, turn, mode, hasProject, u);
  }

  lemma {:induction false} ResultTrace(cost: int, w: World, db: Database, s: Session, items: seq<ResultItem>, u: Unit)
    requires Starts(u) && UnitInv(cost, u) && w.cost == cost && u.work.account == db.account && db.next <= u.next
        && !u.temporary
    ensures var p := Finish(ToolResultTurn(w, s, items, u)).0;
            TraceInv(cost, db, p.unit.next, p.unit.log, false) && p.unit.next >= u.next
  {
    hide AccountInv, ChatInv, Continue, Startable, Turns, ApplyResults, NextStepAfter, AccountGrew, Grounded;
    var c := u.work.chat;
    var (turn, error) := Resolve(c, items, None);
    if turn.Some? {
      ApplyKeeps(c, u.work.account.initiated, u.next, items);
      var v := SetChat(u, ApplyResults(c, items));
      SameAccount(cost, db, u.next, u.work.account);
      if PendingClient(w, v.work.chat, turn.value) != {} || NextStepAfter(v.work.chat, turn.value, items[0].call).Some? {
      } else {
        CallTurn(cost, u.work, u.next, items[0].call);
        assert Startable(v, turn.value) by { StartableIf(v, turn.value); }
        CallsBelow(v.work.chat, v.work.account.initiated, v.next);
        GroundedIf(cost, Base(v.work, v.next, turn.value));
        GenerationTrace(cost, w, db, turn.value, s.mode, s.hasProject, v);
        ContinueNext(w, turn.value, s.mode, s.hasProject, v);
      }
    }
  }

  lemma {:induction false} SameAccount(cost: int, db: Database, next: Id, a: Account)
    requires AccountInv(cost, a, next) && a == db.account
    ensures AccountGrew(db.account, a, db.next)
  {
  }

  lemma {:induction false} SessionStart(cost: int, db: Database, id: Id)
    requires DbInv(cost, db) && id in db.sessions
    ensures UnitInv(cost, Unit(Store(db.sessions[id].chat, db.account), [], db.next, [], false))
  {
    hide AccountInv, ChatInv;
  }

  lemma {:induction false} NewStart(cost: int, db: Database, chat: Chat, later: Id, temporary: bool)
    requires DbInv(cost, db) && db.next <= later && (temporary || chat == Chat([], map[]))
    ensures UnitInv(cost, Unit(Store(chat, db.account), [], later, [], temporary))
  {
    hide AccountInv;
    NextGrows(cost, db.account, db.next, later);
    EmptyChat(db.account.initiated, later);
  }

  lemma {:induction false} RunKeeps(cost: int, w: World, db: Database, r: Request)
    requires DbInv(cost, db) && w.cost == cost && r.Run?
    ensures var (after, trace) := Exec(w, db, r);
            DbInv(cost, after) && TraceInv(cost, db, after.next, trace.log, false)
  {
    hide AccountInv, ChatInv, RunTurn, Finish, AccountGrew;
    var (id, s, isNew) := Target(db, r);
    var u := Unit(Store(s.chat, db.account), [], if isNew then db.next + 1 else db.next, [], false);
    if isNew { NewStart(cost, db, s.chat, db.next + 1, false); } else { SessionStart(cost, db, id); }
    RunTrace(cost, w, db, s, isNew, r.request, u);
    InstallKeeps(cost, db, id, s, Finish(RunTurn(w, s, isNew, r.request, u)).0.unit);
  }

  lemma {:induction false} TemporaryKeeps(cost: int, w: World, db: Database, r: Request)
    requires DbInv(cost, db) && w.cost == cost && r.TemporaryRun?
    ensures var (after, trace) := Exec(w, db, r);
            DbInv(cost, after) && TraceInv(cost, db, after.next, trace.log, true) && after.sessions == db.sessions
  {
    hide AccountInv, ChatInv, RunTurn, Finish, AccountGrew;
    var steps := Seed(r.transcript, db.next);
    var s := Session(Chat(steps, map[]), r.mode, false);
    var u := Unit(Store(s.chat, db.account), [], db.next + |steps|, [], true);
    NewStart(cost, db, s.chat, u.next, true);
    RunTrace(cost, w, db, s, true, r.request, u);
    var p := Finish(RunTurn(w, s, true, r.request, u)).0;
    MoveOn(cost, db, p.unit.log, p.unit.next);
  }

  /** Sessions that a request does not touch, after its last commit. */
  lemma {:induction false} MoveOn(cost: int, db: Database, log: seq<Store>, next: Id)
    requires DbInv(cost, db) && TraceInv(cost, db, next, log, true)
    ensures DbInv(cost, db.(account := if log == [] then db.account else log[|log| - 1].account, next := next))
  {
    hide AccountInv, ChatInv, AccountGrew;
    if log == [] {
      NextGrows(cost, db.account, db.next, next);
      SameAccount(cost, db, db.next, db.account);
    } else {
      assert Commits(cost, db, next, log[|log| - 1]);
    }
    var a := if log == [] then db.account else log[|log| - 1].account;
    forall k | k in db.sessions ensures k < next && ChatInv(db.sessions[k].chat, a.initiated, next) {
      OtherSession(db.sessions[k].chat, db.account, a, db.next, next);
    }
  }

  lemma {:induction false} ResultKeeps(cost: int, w: World, db: Database, r: Request)
    requires DbInv(cost, db) && w.cost == cost && r.ToolResult?
    ensures var (after, trace) := Exec(w, db, r);
            DbInv(cost, after) && TraceInv(cost, db, after.next, trace.log, false)
  {
    hide AccountInv, ChatInv, ToolResultTurn, Finish, AccountGrew;
    if r.session in db.sessions {
      var s := db.sessions[r.session];
      var u := Unit(Store(s.chat, db.account), [], db.next, [], false);
      SessionStart(cost, db, r.session);
      ResultTrace(cost, w, db, s, r.items, u);
      InstallKeeps(cost, db, r.session, s, Finish(ToolResultTurn(w, s, r.items, u)).0.unit);
    }
  }

  lemma {:induction false} OutsideKeeps(cost: int, w: World, db: Database, r: Request)
    requires DbInv(cost, db) && !r.Run? && !r.TemporaryRun? && !r.ToolResult?
    ensures var (after, trace) := Exec(w, db, r);
            DbInv(cost, after) && TraceInv(cost, db, after.next, trace.log, false)
  {
    hide AccountInv, ChatInv, AccountGrew, Consume, Grant;
    match r
    case WalletConsume(name, amount) =>
      if Consume(db.account.purse, Named(name), amount).1.Ok() {
        OutsideKeepsAccount(cost, db.account, db.next, Op(Debit, Named(name), amount));
      }
    case WalletGrant(name, amount) =>
      if Grant(db.account.purse, Named(name), amount).1.Ok() {
        OutsideKeepsAccount(cost, db.account, db.next, Op(Credit, Named(name), amount));
      }
    case SetSubscription(subscription) =>
      SettingsKeepAccount(cost, db.account, db.next, db.account.(subscription := subscription));
    case SetKey(key) =>
      SettingsKeepAccount(cost, db.account, db.next, db.account.(key := key));
  }

  /** One request keeps the database invariant and commits only good states. */
  lemma {:induction false} ExecKeeps(cost: int, w: World, db: Database, r: Request)
    requires DbInv(cost, db) && w.cost == cost
    ensures var (after, trace) := Exec(w, db, r);
            DbInv(cost, after) && TraceInv(cost, db, after.next, trace.log, r.TemporaryRun?)
  {
    hide DbInv, TraceInv, Exec;
    match r
    case Run(_, _, _, _, _) => RunKeeps(cost, w, db, r);
    case TemporaryRun(_, _, _) => TemporaryKeeps(cost, w, db, r);
    case ToolResult(_, _) => ResultKeeps(cost, w, db, r);
    case _ => OutsideKeeps(cost, w, db, r);
  }

  lemma {:induction false} PlayKeeps(cost: int, db: Database, events: seq<Event>)
    requires DbInv(cost, db) && SameCost(cost, events)
    ensures DbInv(cost, Play(db, events))
  {
    hide DbInv, Exec;
    if events != [] {
      var n := |events| - 1;
      PlayKeeps(cost, db, events[..n]);
      ExecKeeps(cost, events[n].world, Play(db, events[..n]), events[n].request);
    }
  }

  lemma {:induction false} FreshHolds(cost: int, db: Database)
    requires Fresh(db)
    ensures DbInv(cost, db)
  {
    EmptyAccount(cost, db.account.trialUsed, db.account.subscription, db.account.key);
  }

  /** The account in a state committed by the i-th request of a run, or left behind by it. */
  ghost predicate Committed(db: Database, events: seq<Event>, i: nat, a: Account) {
    && i < |events|
    && (|| a == Play(db, events[..i + 1]).account
        || exists k :: 0 <= k < |TraceAt(db, events, i).log| && TraceAt(db, events, i).log[k].account == a)
  }

  lemma {:induction false} EveryCommit(cost: int, db: Database, events: seq<Event>, i: nat, a: Account)
    requires Fresh(db) && SameCost(cost, events) && Committed(db, events, i, a)
    ensures AccountInv(cost, a, Play(db, events[..i + 1]).next)
  {
    hide Exec, Fresh, AccountInv, ChatInv, AccountGrew;
    FreshHolds(cost, db);
    PlayKeeps(cost, db, events[..i]);
    PlayKeeps(cost, db, events[..i + 1]);
    ExecKeeps(cost, events[i].world, Play(db, events[..i]), events[i].request);
    assert events[..i + 1][..i] == events[..i];
    if a != Play(db, events[..i + 1]).account {
      var k :| 0 <= k < |TraceAt(db, events, i).log| && TraceAt(db, events, i).log[k].account == a;
      assert Commits(cost, Play(db, events[..i]), Play(db, events[..i + 1]).next, TraceAt(db, events, i).log[k]);
    }
  }

  /** Charge conservation: in every committed state of every run, the debits ever made for a turn are
      the price of its stored images, plus one credit exactly if its final step was billed. */
  lemma {:induction false} ChargeConservation(cost: int, db: Database, events: seq<Event>, i: nat, a: Account, turn: Id)
    requires Fresh(db) && SameCost(cost, events) && Committed(db, events, i, a)
    requires turn !in a.initiated
    ensures Debits(a.purse.ledger, a.initiated, turn) ==
            cost * ImagesOf(a.images, turn) + if Final(turn, Policy.DebitCredit) in a.finals then 1 else 0
  {
    hide Committed, Fresh, Debits, ImagesOf, SameCost, Sound, IdsInv, KeysInv, TrialOnce, Play;
    EveryCommit(cost, db, events, i, a);
    assert Balanced(cost, a, turn);
  }

  /** A turn is charged as a whole, its final step and all its images, or not at all, exactly when its final
      step was billed or it stored no image. */
  lemma {:induction false} ChargedAsWhole(cost: int, db: Database, events: seq<Event>, i: nat, a: Account, turn: Id)
    requires Fresh(db) && SameCost(cost, events) && Committed(db, events, i, a)
    requires turn !in a.initiated && cost > 0
    ensures var debits, n := Debits(a.purse.ledger, a.initiated, turn), ImagesOf(a.images, turn);
            debits == 1 + cost * n || debits == 0 <==> Billed(a.finals, turn) || n == 0
  {
    hide Committed, Fresh, Debits, ImagesOf, SameCost, Play;
    ChargeConservation(cost, db, events, i, a, turn);
    var n := ImagesOf(a.images, turn);
    if n > 0 {
      assert cost * n >= cost;
    } else {
      assert cost * n == 0;
    }
  }

  /** The wallet is never negative, always the sum of its ledger, and has one row per key. */
  lemma {:induction false} LedgerAlwaysSound(cost: int, db: Database, events: seq<Event>, i: nat, a: Account)
    requires Fresh(db) && SameCost(cost, events) && Committed(db, events, i, a)
    ensures a.purse.balance == Net(a.purse.ledger) && a.purse.balance >= 0
    ensures UniqueKeys(a.purse.ledger)
  {
    hide Committed, Fresh, SameCost, Net, UniqueKeys, Conserved, IdsInv, KeysInv, TrialOnce, Play;
    EveryCommit(cost, db, events, i, a);
  }

  /** One lifetime trial: at most one final step is ever paid with it, across all sessions. */
  lemma {:induction false} OneLifetimeTrial(cost: int, db: Database, events: seq<Event>, i: nat, a: Account)
    requires Fresh(db) && SameCost(cost, events) && Committed(db, events, i, a)
    ensures TrialFinals(a.finals) <= if a.trialUsed then 1 else 0
  {
    hide Committed, Fresh, SameCost, Sound, Conserved, IdsInv, KeysInv, TrialFinals, Play;
    EveryCommit(cost, db, events, i, a);
  }

  /** The rows of a session in a state committed by a request on it. */
  lemma {:induction false} EveryChatCommit(cost: int, db: Database, events: seq<Event>, i: nat, k: nat)
    requires Fresh(db) && SameCost(cost, events) && i < |events| && !events[i].request.TemporaryRun?
    requires k < |TraceAt(db, events, i).log|
    ensures var s := TraceAt(db, events, i).log[k]; ChatInv(s.chat, s.account.initiated, Play(db, events[..i + 1]).next)
  {
    hide Exec, Fresh, AccountInv, ChatInv, AccountGrew, DbInv;
    FreshHolds(cost, db);
    PlayKeeps(cost, db, events[..i]);
    ExecKeeps(cost, events[i].world, Play(db, events[..i]), events[i].request);
    assert events[..i + 1][..i] == events[..i];
  }

  /** In every committed state a tool call is pending iff no tool step carries its id, and otherwise
      exactly one does, in the call's own turn and with the call's status and result. */
  lemma {:induction false} AnsweredOnce(cost: int, db: Database, events: seq<Event>, i: nat, k: nat, id: Id)
    requires Fresh(db) && SameCost(cost, events) && i < |events| && !events[i].request.TemporaryRun?
    requires k < |TraceAt(db, events, i).log|
    requires id in TraceAt(db, events, i).log[k].chat.calls
    ensures var c := TraceAt(db, events, i).log[k].chat;
            && ResultCount(c.steps, id) == (if c.calls[id].status.Pending? then 0 else 1)
            && c.calls[id].turn in Turns(c.steps)
            && forall j :: 0 <= j < |c.steps| && c.steps[j].body.Tool? && c.steps[j].body.call == id ==>
                 ResultMatches(c.steps[j], c.calls[id])
  {
    hide Fresh, SameCost, AccountInv, ResultCount, ResultMatches, Play, TraceAt;
    EveryChatCommit(cost, db, events, i, k);
    var s := TraceAt(db, events, i).log[k];
    assert CallInv(s.chat, s.account.initiated, id);
    var next := Play(db, events[..i + 1]).next;
    forall j | 0 <= j < |s.chat.steps| && s.chat.steps[j].body.Tool? && s.chat.steps[j].body.call == id
      ensures ResultMatches(s.chat.steps[j], s.chat.calls[id])
    {
      assert StepInv(s.chat, s.account.initiated, next, s.chat.steps[j]);
    }
  }
}
