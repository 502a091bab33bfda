/** Every answer stored in a credits-mode session has its final step on record, and has been paid for. */
module StoredAnswers {
  import opened Wallet
  import opened Records
  import opened Repository
  import opened Engine
  import opened Money
  import opened History
  import opened Growth
  import opened Runs
  import opened Responses
  import opened Billing
  import opened ToolResults
  import opened Replies
  import Policy

  predicate OnRecord(finals: seq<Final>, turn: Id) {
    Billed(finals, turn) || Final(turn, Policy.SpendTrial) in finals
  }

  ghost predicate Covered(c: Chat, finals: seq<Final>) {
    forall i :: 0 <= i < |c.steps| && IsAnswer(c.steps[i]) ==> OnRecord(finals, c.steps[i].turn)
  }

  ghost predicate StoreCovered(s: Store) { Covered(s.chat, s.account.finals) }

  ghost predicate LogCovered(log: seq<Store>) { forall i :: 0 <= i < |log| ==> StoreCovered(log[i]) }

  ghost predicate FlowCovered(f: Flow) {
    match f
    case More(p) => StoreCovered(p.unit.work) && LogCovered(p.unit.log)
    case Halt(p, out) => LogCovered(p.unit.log) && (!out.Raised? ==> StoreCovered(p.unit.work))
  }

  lemma {:induction false} AppendCovered(c: Chat, finals: seq<Final>, turn: Id, body: Body)
    requires Covered(c, finals) && (IsAnswer(Step(turn, body)) ==> OnRecord(finals, turn))
    ensures Covered(AddStep(c, turn, body), finals)
  {
    hide IsAnswer, OnRecord;
  }

  lemma {:induction false} MoreFinals(c: Chat, finals: seq<Final>, later: seq<Final>)
    requires Covered(c, finals) && finals <= later
    ensures Covered(c, later)
  {
    hide IsAnswer;
    forall i | 0 <= i < |c.steps| && IsAnswer(c.steps[i]) ensures OnRecord(later, c.steps[i].turn) {
      assert OnRecord(finals, c.steps[i].turn);
    }
  }

  lemma {:induction false} AnswerCovered(c: Chat, finals: seq<Final>, id: Id, result: Option<string>,
                                         error: Option<string>)
    requires Covered(c, finals) && id in c.calls
    ensures Covered(Answer(c, id, result, error), finals)
  {
  }

  lemma {:induction false} CommitCovered(u: Unit)
    requires StoreCovered(u.work) && LogCovered(u.log)
    ensures LogCovered(Commit(u).log)
  {
    hide StoreCovered;
  }

  lemma {:induction false} ImageCovered(w: World, t: Turn, p: Progress, id: Id, provider: string)
    requires StoreCovered(p.unit.work) && LogCovered(p.unit.log) && p.unit.log != [] && !p.unit.temporary
    requires id in p.unit.work.chat.calls
    ensures FlowCovered(ExecuteImage(w, t, p, id, provider))
  {
    hide Answer, Consume, Covered;
    var (c, f) := (p.unit.work.chat, p.unit.work.account.finals);
    AnswerCovered(c, f, id, None, Some("content_policy"));
    AnswerCovered(c, f, id, None, Some("image_generation_failed"));
    AnswerCovered(c, f, id, Some("image"), None);
    assert StoreCovered(p.unit.log[|p.unit.log| - 1]);
  }

  lemma {:induction false} BlockCovered(w: World, t: Turn, p: Progress, block: Block)
    requires StoreCovered(p.unit.work) && LogCovered(p.unit.log) && p.unit.log != [] && !p.unit.temporary
        && block.ToolUse?
    ensures FlowCovered(HandleBlock(w, t, p, block))
  {
    hide Answer, ExecuteImage;
    var checked := w.validate(block.name, block.input);
    var args := if checked.Some? then checked.value else block.input;
    var id := p.unit.next;
    var q := p.(unit := OpenCall(p.unit, t.id, block.name, args, block.id));
    assert StoreCovered(q.unit.work);
    if w.kind(block.name).Image? {
      ImageCovered(w, t, q, id, block.id);
    } else {
      var x := w.execute(id, block.name, args);
      AnswerCovered(q.unit.work.chat, q.unit.work.account.finals, id,
                    if x.Done? then Some(x.result) else None, if x.Refused? then Some(x.code) else None);
    }
  }

  lemma {:induction false} BlocksCovered(w: World, t: Turn, p: Progress, uses: seq<Block>)
    requires StoreCovered(p.unit.work) && LogCovered(p.unit.log) && p.unit.log != [] && !p.unit.temporary
    requires forall x :: x in uses ==> x.ToolUse?
    ensures FlowCovered(HandleBlocks(w, t, p, uses))
    decreases |uses|
  {
    hide HandleBlock, StoreCovered, LogCovered;
    if uses != [] {
      BlockFrame(w, t, p, uses[0]);
      BlockCovered(w, t, p, uses[0]);
      match HandleBlock(w, t, p, uses[0]) {
        case Halt(_, _) =>
        case More(q) => BlocksCovered(w, t, q, uses[1..]);
      }
    }
  }

  lemma {:induction false} FinalizeCovered(t: Turn, p: Progress, content: seq<Block>)
    requires StoreCovered(p.unit.work) && LogCovered(p.unit.log) && p.unit.log != [] && !p.unit.temporary
        && !t.plan.Free?
    ensures FlowCovered(Finalize(t, p, content))
  {
    hide Consume, Covered, IsAnswer;
    var finals := p.unit.work.account.finals + [Final(t.id, t.plan)];
    MoreFinals(p.unit.work.chat, p.unit.work.account.finals, finals);
    assert finals[|finals| - 1] == Final(t.id, t.plan);
    AppendCovered(p.unit.work.chat, finals, t.id, Assistant(content, false));
    assert StoreCovered(p.unit.log[|p.unit.log| - 1]);
  }

  lemma {:induction false} RoundCovered(w: World, t: Turn, p: Progress)
    requires StoreCovered(p.unit.work) && LogCovered(p.unit.log) && !p.unit.temporary && !t.plan.Free?
    ensures FlowCovered(Round(w, t, p))
  {
    hide HandleBlocks, Finalize, Covered;
    var u := Commit(p.unit);
    CommitCovered(p.unit);
    var q := p.(unit := u.(sent := u.sent + [u.work.chat]));
    match w.model(|u.sent|, Build(u.work.chat.steps))
    case Unavailable =>
    case AuthRejected =>
    case Reply(stop, content) =>
      if stop.MaxTokens? {
        AppendCovered(q.unit.work.chat, q.unit.work.account.finals, t.id, Assistant(content, true));
      } else if stop.ToolUseStop? && ToolUses(content) != [] {
        AppendCovered(q.unit.work.chat, q.unit.work.account.finals, t.id, Assistant(content, false));
        BlocksCovered(w, t, q.(unit := Write(q.unit, t.id, Assistant(content, false)), clients := []),
                      ToolUses(content));
      } else {
        FinalizeCovered(t, q, content);
      }
  }

  lemma {:induction false} LoopCovered(w: World, t: Turn, p: Progress, n: nat)
    requires StoreCovered(p.unit.work) && LogCovered(p.unit.log) && !p.unit.temporary && !t.plan.Free?
    ensures var (q, out) := Loop(w, t, p, n); FlowCovered(Halt(q, out))
    decreases n
  {
    hide Round, StoreCovered;
    if n > 0 {
      RoundCovered(w, t, p);
      match Round(w, t, p) {
        case Halt(_, _) =>
        case More(q) =>
          RoundSends(w, t, p);
          LoopCovered(w, t, q, n - 1);
      }
    }
  }

  lemma {:induction false} ContinueCovered(w: World, turn: Id, hasProject: bool, u: Unit)
    requires u.log == [] && !u.temporary && StoreCovered(u.work)
    ensures LogCovered(Finish(Continue(w, turn, Policy.Credits, hasProject, u)).0.unit.log)
  {
    hide Loop, StoreCovered;
    var s := u.work.account.PolicyState();
    var t := Turn(turn, Policy.Credits, Policy.BillingPlan(Policy.Credits, s), hasProject);
    if Policy.Evaluate(s, Policy.Credits).Allow? {
      Policy.AllowedPlan(s, Policy.Credits);
      LoopCovered(w, t, Progress(u, [], [], []), w.rounds + 1);
    }
  }

  // ---- requests and runs ----

  /** In every credits-mode session each answer has its final step on record. */
  ghost predicate DbCovered(db: Database) {
    forall id :: id in db.sessions && db.sessions[id].mode.Credits? ==> Covered(db.sessions[id].chat, db.account.finals)
  }

  /** The state a credits-mode generation starts from is covered if its session is. */
  lemma {:induction false} BaseCovered(w: World, db: Database, r: Request)
    requires (r.Run? || r.ToolResult?) && BaseOf(w, db, r).Some? && DbCovered(db)
        && ModeOf(db, r) == Some(Policy.Credits)
    ensures StoreCovered(BaseOf(w, db, r).value.store)
  {
    hide IsAnswer, OnRecord, PendingClient, NextStepAfter, Resolve;
    var c := BaseOf(w, db, r).value.store.chat;
    if r.ToolResult? {
      hide ApplyResults;
      ApplyAppends(db.sessions[r.session].chat, r.items);
      ToolsAreNoAnswers(c.steps);
    } else {
      assert !IsAnswer(c.steps[|c.steps| - 1]) by { SpeakersAreNoAnswers(c.steps[|c.steps| - 1]); }
    }
  }

  lemma {:induction false} ToolsAreNoAnswers(steps: seq<Step>)
    ensures forall i :: 0 <= i < |steps| && steps[i].body.Tool? ==> !IsAnswer(steps[i])
  {
  }

  lemma {:induction false} SpeakersAreNoAnswers(s: Step)
    requires s.body.User?
    ensures !IsAnswer(s)
  {
  }

  /** Every state a credits-mode request commits is covered. */
  lemma {:induction false} TraceCovered(w: World, db: Database, r: Request)
    requires DbCovered(db) && (r.Run? || r.ToolResult?) && ModeOf(db, r) == Some(Policy.Credits)
    ensures LogCovered(Exec(w, db, r).1.log)
  {
    hide Continue, Finish, StoreCovered, DbCovered, Truncate, PendingClient, NextStepAfter, Resolve, ApplyResults;
    if BaseOf(w, db, r).Some? {
      hide Exec, BaseOf;
      BaseCovered(w, db, r);
      GenerationIs(w, db, r);
      var b := BaseOf(w, db, r).value;
      BaseInSession(w, db, r);
      ContinueCovered(w, b.turn, Place(db, r).1.hasProject, Opening(b));
    } else {
      UncontinuedCovered(w, db, r);
    }
  }

  lemma {:induction false} BaseInSession(w: World, db: Database, r: Request)
    requires (r.Run? || r.ToolResult?) && BaseOf(w, db, r).Some?
    ensures r.Run? || r.session in db.sessions
  {
  }

  /** Without a generation a request commits at most the results it brought. */
  lemma {:induction false} UncontinuedCovered(w: World, db: Database, r: Request)
    requires DbCovered(db) && (r.Run? || r.ToolResult?) && ModeOf(db, r) == Some(Policy.Credits)
    requires BaseOf(w, db, r).None?
    ensures LogCovered(Exec(w, db, r).1.log)
  {
    hide Continue, IsAnswer, OnRecord, Truncate, PendingClient, NextStepAfter, Resolve, ApplyResults;
    if r.ToolResult? {
      var c := db.sessions[r.session].chat;
      var d := ApplyResults(c, r.items);
      ApplyAppends(c, r.items);
      ToolsAreNoAnswers(d.steps);
      assert Covered(d, db.account.finals);
    }
  }

  lemma {:induction false} ExecCovered(cost: int, w: World, db: Database, r: Request)
    requires DbInv(cost, db) && w.cost == cost && DbCovered(db)
    ensures DbCovered(Exec(w, db, r).0)
  {
    hide DbInv, AccountInv, ChatGrew, Covered, RunTurn, ToolResultTurn, Finish, Consume, Grant;
    ExecKeeps(cost, w, db, r);
    var (after, trace) := Exec(w, db, r);
    if trace.log != [] {
      var last := trace.log[|trace.log| - 1];
      assert Commits(cost, db, after.next, last);
      assert after.account == last.account by {
        if r.Run? || r.TemporaryRun? || r.ToolResult? { LastCommitInstalled(w, db, r); }
      }
      if ModeOf(db, r) == Some(Policy.Credits) && !r.TemporaryRun? {
        TraceCovered(w, db, r);
        assert StoreCovered(last);
      }
    }
    forall id | id in after.sessions && after.sessions[id].mode.Credits?
      ensures Covered(after.sessions[id].chat, after.account.finals)
    {
      if id in db.sessions && after.sessions[id] == db.sessions[id] {
        MoreFinals(db.sessions[id].chat, db.account.finals, after.account.finals);
      }
    }
  }

  lemma {:induction false} PlayCovered(cost: int, db: Database, events: seq<Event>)
    requires Fresh(db) && SameCost(cost, events)
    ensures DbCovered(Play(db, events))
  {
    hide Exec, DbInv, Fresh, DbCovered;
    if events == [] {
      NoSessionCovered(db);
    } else {
      var n := |events| - 1;
      PlayCovered(cost, db, events[..n]);
      FreshHolds(cost, db);
      PlayKeeps(cost, db, events[..n]);
      ExecCovered(cost, events[n].world, Play(db, events[..n]), events[n].request);
    }
  }

  lemma {:induction false} NoSessionCovered(db: Database)
    requires Fresh(db)
    ensures DbCovered(db)
  {
  }

  /** Every answer stored in a credits-mode session has been paid for, after any run of a new user. */
  lemma {:induction false} StoredAnswersArePaid(cost: int, db: Database, events: seq<Event>, id: Id, i: nat)
    requires Fresh(db) && SameCost(cost, events)
    requires var now := Play(db, events);
             && id in now.sessions && now.sessions[id].mode.Credits?
             && i < |now.sessions[id].chat.steps| && IsAnswer(now.sessions[id].chat.steps[i])
    ensures PaidFor(Play(db, events).account, Play(db, events).sessions[id].chat.steps[i].turn)
  {
    hide Fresh, AccountInv, IsAnswer, PaidFor, Play;
    var now := Play(db, events);
    PlayCovered(cost, db, events);
    FreshHolds(cost, db);
    PlayKeeps(cost, db, events);
    var turn := now.sessions[id].chat.steps[i].turn;
    assert OnRecord(now.account.finals, turn);
    if Billed(now.account.finals, turn) {
      RecordedIsPaid(cost, now.account, now.next, turn, Policy.DebitCredit);
    } else {
      RecordedIsPaid(cost, now.account, now.next, turn, Policy.SpendTrial);
    }
  }
}
