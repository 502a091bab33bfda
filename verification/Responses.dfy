/** The response of a request against the rows it committed and the model calls it made. */
module Responses {
  import opened Wallet
  import opened Records
  import opened Repository
  import opened Engine
  import opened Money
  import opened History
  import opened Growth
  import opened TurnSafety
  import opened Runs
  import Policy

  /** The state the generation of a request starts from, or `None` if the request never gets there. */
  function BaseOf(w: World, db: Database, r: Request): Option<Base> {
    match r
    case Run(_, _, _, _, q) =>
      var (id, s, isNew) := Target(db, r);
      var turn := if isNew then db.next + 1 else db.next;
      var chat := if q.edit.None? then Some(s.chat) else if isNew then None else Truncate(s.chat, q.edit.value);
      if chat.None? then None
      else Some(Base(Store(AddStep(chat.value, turn, User(q.content, q.actionPrompt)), db.account), turn + 1, turn))
    case TemporaryRun(transcript, _, q) =>
      var turn := db.next + |transcript|;
      if q.edit.Some? then None
      else
        var seeded := Chat(Seed(transcript, db.next), map[]);
        Some(Base(Store(AddStep(seeded, turn, User(q.content, q.actionPrompt)), db.account), turn + 1, turn))
    case ToolResult(id, items) =>
      if id !in db.sessions then None
      else
        var c := db.sessions[id].chat;
        var turn := Resolve(c, items, None).0;
        if turn.None? then None
        else
          var d := ApplyResults(c, items);
          if PendingClient(w, d, turn.value) != {} || NextStepAfter(d, turn.value, items[0].call).Some? then None
          else Some(Base(Store(d, db.account), db.next, turn.value))
    case _ => None
  }

  /** The session a request works on. */
  function Place(db: Database, r: Request): (Id, Session)
    requires r.Run? || (r.ToolResult? && r.session in db.sessions)
  {
    if r.Run? then (Target(db, r).0, Target(db, r).1) else (r.session, db.sessions[r.session])
  }

  function Opening(b: Base): Unit { Unit(b.store, [], b.next, [], false) }

  /** A request that gets to its generation is that generation, from the base on. */
  lemma {:induction false} GenerationIs(w: World, db: Database, r: Request)
    requires (r.Run? || r.ToolResult?) && BaseOf(w, db, r).Some?
    ensures var b := BaseOf(w, db, r).value;
            var (id, s) := Place(db, r);
            var (p, out) := Finish(Continue(w, b.turn, s.mode, s.hasProject, Opening(b)));
            Exec(w, db, r) == (Install(db, id, s, p.unit), Trace(out, p.unit.log, p.unit.sent))
  {
    hide Continue, Finish, Install, Truncate, ApplyResults, NextStepAfter, PendingClient;
  }

  lemma {:induction false} LoopFirst(w: World, t: Turn, p: Progress, n: nat)
    requires p.unit.sent == []
    ensures var sent := Loop(w, t, p, n).0.unit.sent; sent != [] ==> sent[0] == p.unit.work.chat
  {
    hide Round;
    if n > 0 {
      RoundSends(w, t, p);
      match Round(w, t, p) {
        case Halt(_, _) =>
        case More(q) => SentBound(w, t, q, n - 1);
      }
    }
  }

  /** The first history a request sends is the one its generation starts from. */
  lemma {:induction false} FirstSent(w: World, db: Database, r: Request)
    requires (r.Run? || r.ToolResult?) && BaseOf(w, db, r).Some?
    ensures var sent := Exec(w, db, r).1.sent; sent != [] ==> sent[0] == BaseOf(w, db, r).value.store.chat
  {
    hide Exec, Loop, Install, Truncate, ApplyResults, PendingClient, NextStepAfter;
    GenerationIs(w, db, r);
    var b := BaseOf(w, db, r).value;
    var (id, s) := Place(db, r);
    var state := b.store.account.PolicyState();
    LoopFirst(w, Turn(b.turn, s.mode, Policy.BillingPlan(s.mode, state), s.hasProject),
              Progress(Opening(b), [], [], []), w.rounds + 1);
  }

  /** A request that the policy check blocks still commits what it brought: its edit and its message, or
      its results. */
  lemma {:induction false} BlockedCommits(w: World, db: Database, r: Request)
    requires (r.Run? || (r.ToolResult? && r.session in db.sessions)) && BaseOf(w, db, r).Some?
    requires Policy.Evaluate(db.account.PolicyState(), Place(db, r).1.mode).Block?
    ensures var b := BaseOf(w, db, r).value;
            var (id, s) := Place(db, r);
            && Exec(w, db, r).0 == Database(db.sessions[id := s.(chat := b.store.chat)], db.account, b.next)
            && Exec(w, db, r).1 ==
               Trace(Blocked(Policy.Evaluate(db.account.PolicyState(), s.mode).reason), [b.store], [])
  {
    hide Exec, Generate, Truncate, ApplyResults, PendingClient, NextStepAfter, Resolve;
    GenerationIs(w, db, r);
  }

  /** What a request's trace must show, seen from the state its generation started from. */
  ghost predicate Reports(w: World, b: Base, next: Id, trace: Trace) {
    && Agrees(b, trace.log, trace.out)
    && (forall i :: 0 <= i < |trace.log| ==> StoreGrew(b, trace.log[i], next))
    && |trace.sent| <= w.rounds + 1
    && (forall i :: 0 <= i < |trace.sent| ==>
          SentOk(b, trace.log, trace.sent[i]) && PendingClient(w, trace.sent[i], b.turn) == {})
  }

  /** A committed history with no call of this generation pending has no pending client call of the
      turn, if the starting state had none. */
  lemma {:induction false} SentWaitsForNone(w: World, b: Base, next: Id, log: seq<Store>, c: Chat)
    requires SentOk(b, log, c) && PendingClient(w, b.store.chat, b.turn) == {}
    requires forall i :: 0 <= i < |log| ==> StoreGrew(b, log[i], next)
    ensures PendingClient(w, c, b.turn) == {}
  {
    hide AccountGrew;
    var k :| 0 <= k < |log| && log[k].chat == c;
    assert StoreGrew(b, log[k], next);
    forall id | id in c.calls ensures id !in PendingClient(w, c, b.turn) {
      assert !NewPending(b, c, id);
      if id in b.store.chat.calls { assert id !in PendingClient(w, b.store.chat, b.turn); }
    }
  }

  lemma {:induction false} ContinueReports(w: World, turn: Id, mode: Policy.Mode, hasProject: bool, u: Unit)
    requires Starts(u) && Grounded(Base(u.work, u.next, turn)) && PendingClient(w, u.work.chat, turn) == {}
    ensures var (p, out) := Finish(Continue(w, turn, mode, hasProject, u));
            Reports(w, Base(u.work, u.next, turn), p.unit.next, Trace(out, p.unit.log, p.unit.sent))
  {
    hide StoreGrew, SentOk, Agrees, Continue, Finish, Grounded, PendingClient;
    ContinueGrew(w, turn, mode, hasProject, u);
    ContinueSends(w, turn, mode, hasProject, u);
    var (p, out) := Finish(Continue(w, turn, mode, hasProject, u));
    var b := Base(u.work, u.next, turn);
    forall i | 0 <= i < |p.unit.sent| ensures PendingClient(w, p.unit.sent[i], b.turn) == {} {
      SentWaitsForNone(w, b, p.unit.next, p.unit.log, p.unit.sent[i]);
    }
  }

  lemma {:induction false} NoCallOfNewTurn(w: World, a: Account, next: Id, c: Chat, turn: Id)
    requires IdsInv(a, next) && ChatInv(c, a.initiated, next) && next <= turn
    ensures PendingClient(w, c, turn) == {}
  {
    hide StepInv, CallsHaveSteps, ResultCount;
    forall id | id in c.calls ensures c.calls[id].turn < next { assert CallInv(c, a.initiated, id); }
  }

  lemma {:induction false} RunReports(cost: int, w: World, db: Database, r: Request)
    requires DbInv(cost, db) && w.cost == cost && r.Run? && BaseOf(w, db, r).Some?
    ensures var (after, trace) := Exec(w, db, r); Reports(w, BaseOf(w, db, r).value, after.next, trace)
  {
    hide AccountInv, ChatInv, Continue, Finish, Truncate, Reports, PendingClient, Grounded, Exec;
    var (id, s, isNew) := Target(db, r);
    var turn := if isNew then db.next + 1 else db.next;
    var chat := if r.request.edit.None? then Some(s.chat)
                else if isNew then None
                else Truncate(s.chat, r.request.edit.value);
    if isNew {
      EmptyChat(db.account.initiated, db.next);
    } else if r.request.edit.Some? {
      TruncateKeeps(s.chat, db.account.initiated, db.next, r.request.edit.value);
    }
    assert ChatInv(chat.value, db.account.initiated, db.next);
    NewTurnReady(cost, w, db, chat.value, turn, User(r.request.content, r.request.actionPrompt));
    ContinueReports(w, turn, s.mode, s.hasProject, Opening(BaseOf(w, db, r).value));
    GenerationIs(w, db, r);
    InstallNext(db, id, s, Finish(Continue(w, turn, s.mode, s.hasProject, Opening(BaseOf(w, db, r).value))).0.unit);
  }

  lemma {:induction false} InstallNext(db: Database, id: Id, s: Session, u: Unit)
    ensures Install(db, id, s, u).next == u.next
  {
  }

  /** `Exec` reports the log and the sent histories of the finished unit. */
  lemma {:induction false} FinishSame(r: (Progress, Outcome))
    ensures Finish(r).1 == r.1 && Finish(r).0.unit.sent == r.0.unit.sent && Finish(r).0.unit.next == r.0.unit.next
  {
  }

  lemma {:induction false} NewTurnReady(cost: int, w: World, db: Database, c: Chat, turn: Id, body: Body)
    requires DbInv(cost, db) && ChatInv(c, db.account.initiated, db.next) && db.next <= turn
    ensures Grounded(Base(Store(AddStep(c, turn, body), db.account), turn + 1, turn))
    ensures PendingClient(w, AddStep(c, turn, body), turn) == {}
  {
    hide Sound, KeysInv, Conserved, TrialOnce, ChatInv, PendingClient;
    IdsBelow(cost, db.account, db.next);
    CallsBelow(c, db.account.initiated, db.next);
    NoCallOfNewTurn(w, db.account, db.next, c, turn);
    SamePending(w, c, turn, body);
  }

  lemma {:induction false} SamePending(w: World, c: Chat, turn: Id, body: Body)
    ensures PendingClient(w, AddStep(c, turn, body), turn) == PendingClient(w, c, turn)
  {
  }

  lemma {:induction false} TemporaryReports(cost: int, w: World, db: Database, r: Request)
    requires DbInv(cost, db) && w.cost == cost && r.TemporaryRun? && BaseOf(w, db, r).Some?
    ensures var (after, trace) := Exec(w, db, r); Reports(w, BaseOf(w, db, r).value, after.next, trace)
  {
    hide AccountInv, ChatInv, Continue, Reports, Grounded;
    var steps := Seed(r.transcript, db.next);
    var turn := db.next + |steps|;
    var body := User(r.request.content, r.request.actionPrompt);
    var u := Unit(Store(Chat(steps, map[]), db.account), [], turn + 1, [], true);
    IdsBelow(cost, db.account, db.next);
    assert Grounded(Base(Write(u, turn, body).work, turn + 1, turn)) by {
      GroundedParts(Base(Write(u, turn, body).work, turn + 1, turn));
    }
    ContinueReports(w, turn, r.mode, false, Write(u, turn, body));
  }

  lemma {:induction false} GroundedParts(b: Base)
    requires forall id :: id in b.store.chat.calls ==> id < b.next
    requires forall k :: k in b.store.account.initiated ==> k < b.next
    ensures Grounded(b)
  {
  }

  lemma {:induction false} ToolResultReports(cost: int, w: World, db: Database, r: Request)
    requires DbInv(cost, db) && w.cost == cost && r.ToolResult? && BaseOf(w, db, r).Some?
    ensures var (after, trace) := Exec(w, db, r); Reports(w, BaseOf(w, db, r).value, after.next, trace)
  {
    hide AccountInv, ChatInv, Continue, Finish, Reports, PendingClient, Grounded, ApplyResults, NextStepAfter, Exec;
    var s := db.sessions[r.session];
    var b := BaseOf(w, db, r).value;
    ApplyKeeps(s.chat, db.account.initiated, db.next, r.items);
    CallsBelow(b.store.chat, db.account.initiated, db.next);
    GroundedIf(cost, b);
    ContinueReports(w, b.turn, s.mode, s.hasProject, Opening(b));
    GenerationIs(w, db, r);
    InstallNext(db, r.session, s, Finish(Continue(w, b.turn, s.mode, s.hasProject, Opening(b))).0.unit);
  }

  /** The response of any request agrees with what it committed, and while it generates, no client
      call of its turn is pending. */
  lemma {:induction false} ResponseAgrees(cost: int, w: World, db: Database, r: Request)
    requires DbInv(cost, db) && w.cost == cost && BaseOf(w, db, r).Some?
    ensures var (after, trace) := Exec(w, db, r); Reports(w, BaseOf(w, db, r).value, after.next, trace)
  {
    hide DbInv, Reports, Exec;
    match r
    case Run(_, _, _, _, _) => RunReports(cost, w, db, r);
    case TemporaryRun(_, _, _) => TemporaryReports(cost, w, db, r);
    case ToolResult(_, _) => ToolResultReports(cost, w, db, r);
    case _ =>
  }

  /** A request that never reaches a generation calls no model and reports no server tool or image. */
  lemma {:induction false} OthersSendNothing(w: World, db: Database, r: Request)
    requires BaseOf(w, db, r).None?
    ensures var trace := Exec(w, db, r).1;
            trace.sent == [] && !trace.out.AssistantMessageOut? && !trace.out.ToolCallOut? && !trace.out.MaxTokensOut?
  {
    hide Continue, Truncate, ApplyResults, NextStepAfter, PendingClient, Consume, Grant;
  }
}
