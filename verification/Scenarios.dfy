/** Concrete runs from a new user that meet the conditions other modules exclude. */
module Scenarios {
  import opened Wallet
  import opened Records
  import opened Repository
  import opened Engine
  import opened History
  import opened Pairing
  import opened Conversation
  import opened Growth
  import opened Runs
  import opened Billing
  import opened Responses
  import opened ToolResults
  import opened StoredAnswers
  import opened Replays
  import opened PairedRuns
  import opened Restore
  import Policy

  // ---- requests with a single model call ----

  /** A credits-mode request that passes the policy check and reaches its generation. */
  ghost predicate Generates(w: World, db: Database, r: Request) {
    && (r.Run? || (r.ToolResult? && r.session in db.sessions)) && BaseOf(w, db, r).Some?
    && Place(db, r).1.mode.Credits?
    && Policy.Evaluate(db.account.PolicyState(), Policy.Credits).Allow?
  }

  /** What the request leaves: one session with these rows, this account, this next id. */
  predicate Leaves(db: Database, r: Request, after: Database, chat: Chat, account: Account, next: Id)
    requires r.Run? || (r.ToolResult? && r.session in db.sessions)
  {
    after == Database(db.sessions[Place(db, r).0 := Place(db, r).1.(chat := chat)], account, next)
  }

  function FirstRound(w: World, b: Base, s: Session): Flow {
    var plan := Policy.BillingPlan(s.mode, b.store.account.PolicyState());
    Round(w, Turn(b.turn, s.mode, plan, s.hasProject), Progress(Opening(b), [], [], []))
  }

  /** A request whose first round ends it. */
  lemma {:induction false} EndsAtOnce(w: World, db: Database, r: Request, p: Progress, out: Outcome)
    requires Generates(w, db, r) && FirstRound(w, BaseOf(w, db, r).value, Place(db, r).1) == Halt(p, out)
    ensures var b := BaseOf(w, db, r).value;
            var (id, s) := Place(db, r);
            var q := Finish((p, out)).0;
            Exec(w, db, r) == (Install(db, id, s, q.unit), Trace(out, q.unit.log, q.unit.sent))
  {
    hide Exec, Continue, Round, Install, Finish, BaseOf;
    BaseAccount(w, db, r);
    GenerationIs(w, db, r);
    var b := BaseOf(w, db, r).value;
    ContinueEndsAtOnce(w, b.turn, Place(db, r).1.hasProject, Opening(b), p, out);
    FinishSame((p, out));
  }

  lemma {:induction false} ContinueEndsAtOnce(w: World, turn: Id, hasProject: bool, u: Unit, p: Progress, out: Outcome)
    requires Policy.Evaluate(u.work.account.PolicyState(), Policy.Credits).Allow?
    requires var plan := Policy.BillingPlan(Policy.Credits, u.work.account.PolicyState());
             Round(w, Turn(turn, Policy.Credits, plan, hasProject), Progress(u, [], [], [])) == Halt(p, out)
    ensures Continue(w, turn, Policy.Credits, hasProject, u) == (p, out)
  {
    hide Round;
  }

  lemma {:induction false} BaseAccount(w: World, db: Database, r: Request)
    requires (r.Run? || r.ToolResult?) && BaseOf(w, db, r).Some?
    ensures BaseOf(w, db, r).value.store.account == db.account
    ensures r.Run? || r.session in db.sessions
  {
    hide Truncate, ApplyResults, PendingClient, NextStepAfter, Resolve;
  }

  /** The model cannot be reached: the rows of the request itself are committed, nothing else. */
  lemma {:induction false} ModelUnavailable(w: World, db: Database, r: Request)
    requires Generates(w, db, r) && w.model(0, Build(BaseOf(w, db, r).value.store.chat.steps)) == Unavailable
    ensures var b := BaseOf(w, db, r).value;
            Leaves(db, r, Exec(w, db, r).0, b.store.chat, db.account, b.next) && Exec(w, db, r).1.sent == [b.store.chat]
  {
    hide Exec, BaseOf;
    BaseAccount(w, db, r);
    var b := BaseOf(w, db, r).value;
    var f := FirstRound(w, b, Place(db, r).1);
    EndsAtOnce(w, db, r, f.p, f.out);
  }

  /** The reply is cut at the output limit. */
  lemma {:induction false} ReplyCut(w: World, db: Database, r: Request, content: seq<Block>)
    requires Generates(w, db, r)
    requires w.model(0, Build(BaseOf(w, db, r).value.store.chat.steps)) == Reply(MaxTokens, content)
    ensures var b := BaseOf(w, db, r).value;
            && Leaves(db, r, Exec(w, db, r).0, AddStep(b.store.chat, b.turn, Assistant(content, true)), db.account, b.next)
            && Exec(w, db, r).1.out.MaxTokensOut? && Exec(w, db, r).1.out.text == TextOf(content)
  {
    hide Exec, BaseOf;
    BaseAccount(w, db, r);
    var b := BaseOf(w, db, r).value;
    var f := FirstRound(w, b, Place(db, r).1);
    EndsAtOnce(w, db, r, f.p, f.out);
  }

  /** The reply asks for one client-side tool. */
  lemma {:induction false} HandedOff(w: World, db: Database, r: Request, use: Block, args: string)
    requires Generates(w, db, r) && !r.TemporaryRun?
    requires w.model(0, Build(BaseOf(w, db, r).value.store.chat.steps)) == Reply(ToolUseStop, [use])
    requires use.ToolUse? && w.kind(use.name).Client? && w.validate(use.name, use.input) == Some(args)
    ensures var b := BaseOf(w, db, r).value;
            var asked := AddStep(b.store.chat, b.turn, Assistant([use], false));
            Leaves(db, r, Exec(w, db, r).0, CreateCall(asked, b.next, b.turn, use.name, args, use.id),
                   db.account.(initiated := db.account.initiated[b.next := b.turn]), b.next + 1)
  {
    hide Exec, BaseOf, Round;
    BaseAccount(w, db, r);
    var b := BaseOf(w, db, r).value;
    var s := Place(db, r).1;
    var plan := Policy.BillingPlan(s.mode, b.store.account.PolicyState());
    var t := Turn(b.turn, s.mode, plan, s.hasProject);
    RoundHandsOff(w, t, Progress(Opening(b), [], [], []), use, args);
    var f := FirstRound(w, b, s);
    EndsAtOnce(w, db, r, f.p, f.out);
  }

  lemma {:induction false} RoundHandsOff(w: World, t: Turn, p: Progress, use: Block, args: string)
    requires p.clients == [] && !p.unit.temporary
    requires w.model(|p.unit.sent|, Build(p.unit.work.chat.steps)) == Reply(ToolUseStop, [use])
    requires use.ToolUse? && w.kind(use.name).Client? && w.validate(use.name, use.input) == Some(args)
    ensures var u := Commit(p.unit);
            var v := OpenCall(Write(u.(sent := u.sent + [u.work.chat]), t.id, Assistant([use], false)),
                              t.id, use.name, args, use.id);
            Round(w, t, p) == Halt(p.(unit := Commit(v), clients := [ClientCall(u.next, use.name, args)]),
                                   ToolCallOut(TextOf([use]), [ClientCall(u.next, use.name, args)], p.tools, p.images))
  {
    assert [use][1..] == [];
    assert ToolUses([use]) == [use];
    var u := Commit(p.unit);
    var q := p.(unit := Write(u.(sent := u.sent + [u.work.chat]), t.id, Assistant([use], false)), clients := []);
    var id := q.unit.next;
    var r := q.(unit := OpenCall(q.unit, t.id, use.name, args, use.id), clients := [ClientCall(id, use.name, args)]);
    assert HandleBlock(w, t, q, use) == More(r);
    assert HandleBlocks(w, t, r, []) == More(r);
  }

  // ---- the scenarios ----

  const NEW := Database(map[], Account(Purse(0, []), map[], [], [], false, Policy.NoSubscription, NoKey), 0)

  /** Every tool is client-side; a history of `n` messages is answered with `reply`, no other one is. */
  function Replying(n: nat, reply: Reply): World {
    World(name => Client, 1, 0, (k, ms) => if |ms| == n then reply else Unavailable, (name, input) => Some(input),
          (id, name, args) => Refused(""), (k, provider) => GenerationFailed)
  }

  function Answering(reply: Reply): World { Replying(1, reply) }

  function Say(session: Option<Id>, text: string, edit: Option<Id>): Request {
    Run(session, false, Policy.Credits, false, RunRequest([Text(text)], None, edit))
  }

  const USE := ToolUse("x", "files.read", "")

  lemma {:induction false} TrialAllows(db: Database)
    requires db.account.subscription.NoSubscription? && !db.account.trialUsed
    ensures Policy.Evaluate(db.account.PolicyState(), Policy.Credits).Allow?
  {
  }

  // The late result: a call is handed over, the user speaks again, then the result arrives.

  function LateResult(): seq<Event> {
    var w := Answering(Reply(ToolUseStop, [USE]));
    [Event(w, Say(None, "a", None)), Event(w, Say(Some(0), "b", None)),
     Event(w, ToolResult(0, [ResultItem(2, Some("r"), None)]))]
  }

  function Alone(chat: Chat, account: Account, next: Id): Database {
    Database(map[0 := Session(chat, Policy.Credits, false)], account, next)
  }

  const OPENED := NEW.account.(initiated := map[2 := 1])

  lemma {:induction false} Asked()
    ensures Exec(LateResult()[0].world, NEW, LateResult()[0].request).0 ==
            Alone(Chat(Interleaved().steps[..2], map[2 := Call(1, "files.read", "", "x", Pending, None)]), OPENED, 3)
  {
    hide Exec;
    var (w, r) := (LateResult()[0].world, LateResult()[0].request);
    TrialAllows(NEW);
    var b := BaseOf(w, NEW, r).value;
    assert b == Base(Store(Chat([Interleaved().steps[0]], map[]), NEW.account), 2, 1);
    HandedOff(w, NEW, r, USE, "");
    assert [Interleaved().steps[0]] + [Interleaved().steps[1]] == Interleaved().steps[..2];
  }

  lemma {:induction false} SpokeAgain(db: Database)
    requires db == Alone(Chat(Interleaved().steps[..2], map[2 := Call(1, "files.read", "", "x", Pending, None)]),
                         OPENED, 3)
    ensures Exec(LateResult()[1].world, db, LateResult()[1].request).0 ==
            Alone(Chat(Interleaved().steps[..3], map[2 := Call(1, "files.read", "", "x", Pending, None)]), OPENED, 4)
  {
    hide Exec;
    var (w, r) := (LateResult()[1].world, LateResult()[1].request);
    TrialAllows(db);
    assert Interleaved().steps[..2] + [Interleaved().steps[2]] == Interleaved().steps[..3];
    ModelUnavailable(w, db, r);
  }

  lemma {:induction false} Arrived(db: Database)
    requires db == Alone(Chat(Interleaved().steps[..3], map[2 := Call(1, "files.read", "", "x", Pending, None)]),
                         OPENED, 4)
    ensures Exec(LateResult()[2].world, db, LateResult()[2].request).0 == Alone(Interleaved(), OPENED, 4)
  {
    hide Exec;
    var (w, r) := (LateResult()[2].world, LateResult()[2].request);
    var c := db.sessions[0].chat;
    TrialAllows(db);
    var d := ApplyResults(c, r.items);
    assert d == Interleaved() by {
      assert r.items[1..] == [];
      assert Interleaved().steps[..3] + [Interleaved().steps[3]] == Interleaved().steps;
    }
    assert Resolve(c, r.items, None).0 == Some(1) by { assert r.items[0] in r.items; }
    assert PendingClient(w, d, 1) == {};
    assert NextStepAfter(d, 1, 2) == None by { NothingAfter(); }
    ModelUnavailable(w, db, r);
  }

  lemma {:induction false} NothingAfter()
    ensures NextStepAfter(Interleaved(), 1, 2) == None
  {
    var s := Interleaved().steps;
    assert IsResult(1, 2)(s[3]) && !IsResult(1, 2)(s[0]) && !IsResult(1, 2)(s[1]) && !IsResult(1, 2)(s[2]);
  }

  /** The interleaved history is reached by a run of a new user, with no edit in it; editing the second
      message then does not give back the history that it once extended. */
  lemma {:induction false} InterleavedReached()
    ensures var now := Play(NEW, LateResult());
            var r := Say(Some(0), "c", Some(3));
            && Fresh(NEW) && SameCost(1, LateResult()) && CleanEdits(NEW, LateResult())
            && now == Alone(Interleaved(), OPENED, 4)
            && Extended(now, r).Some? && 3 in OriginsOf(NEW, LateResult())
            && Extended(now, r) != Some(Origin(NEW, LateResult(), 3))
  {
    hide Exec;
    var e := LateResult();
    Asked();
    var one := Exec(e[0].world, NEW, e[0].request).0;
    SpokeAgain(one);
    var two := Exec(e[1].world, one, e[1].request).0;
    Arrived(two);
    assert Play(NEW, e) == Alone(Interleaved(), OPENED, 4) by { PlayThree(NEW, e); }
    InterleavedCut();
    var r := Say(Some(0), "c", Some(3));
    var now := Play(NEW, e);
    assert Target(now, r).1.chat == Interleaved();
    assert Extended(now, r) == Some(CutAt(Interleaved(), 2));
    assert Anchor(now, r) == 2;
    EditUndoes(1, NEW, e, r);
  }

  lemma {:induction false} PlayThree(db: Database, e: seq<Event>)
    requires |e| == 3
    ensures var one := Exec(e[0].world, db, e[0].request).0;
            var two := Exec(e[1].world, one, e[1].request).0;
            Play(db, e) == Exec(e[2].world, two, e[2].request).0
  {
    hide Exec;
    assert e[..2][..1] == e[..1] && e[..1][..0] == [];
    assert Play(db, e[..1]) == Exec(e[0].world, db, e[0].request).0;
    assert Play(db, e[..2]) == Exec(e[1].world, Play(db, e[..1]), e[1].request).0;
  }

  // ---- speaking over an unanswered tool_use ----

  /** The first message, then a reply that asks for one tool. */
  function Asking(cut: bool): seq<Step> {
    [Step(1, User([Text("a")], None)), Step(1, Assistant([USE], cut))]
  }

  /** A user step after an unanswered tool_use, cut off or not, leaves a history no provider accepts. */
  lemma {:induction false} SpokenOver(cut: bool, turn: Id)
    ensures !Paired(Build(Asking(cut) + [Step(turn, User([Text("b")], None))]))
  {
    hide Paired;
    var s := Asking(cut);
    var said := Step(turn, User([Text("b")], None));
    InterleavedWaits();
    assert Build(Interleaved().steps[..2]) == Build(s);
    ScanSnoc(s, said);
    ScanDecidesPaired(Build(s + [said]));
    assert "x" in {"x"};
  }

  lemma {:induction false} CutOff(w: World)
    requires w == Answering(Reply(MaxTokens, [USE]))
    ensures Exec(w, NEW, Say(None, "a", None)).0 == Alone(Chat(Asking(true), map[]), NEW.account, 2)
  {
    hide Exec;
    var r := Say(None, "a", None);
    TrialAllows(NEW);
    assert BaseOf(w, NEW, r).value == Base(Store(Chat([Asking(true)[0]], map[]), NEW.account), 2, 1);
    ReplyCut(w, NEW, r, [USE]);
    assert [Asking(true)[0]] + [Asking(true)[1]] == Asking(true);
  }

  lemma {:induction false} SaysOver(w: World, db: Database, cut: bool)
    requires db.sessions.Keys == {0} && db.sessions[0].mode.Credits? && db.sessions[0].chat.steps == Asking(cut)
    requires db.account.subscription.NoSubscription? && !db.account.trialUsed
    requires forall ms :: |ms| == 3 ==> w.model(0, ms) == Unavailable
    ensures var sent := Exec(w, db, Say(Some(0), "b", None)).1.sent; |sent| == 1 && !Paired(Build(sent[0].steps))
  {
    hide Exec, Paired;
    var r := Say(Some(0), "b", None);
    TrialAllows(db);
    ModelUnavailable(w, db, r);
    SpokenOver(cut, db.next);
  }

  lemma {:induction false} AskedOnce()
    ensures ToolUses([USE]) == [USE] && ToolIds([USE]) == {"x"}
  {
    assert [USE][1..] == [];
    assert USE in [USE];
  }

  /** The guard is needed. A new user whose first answer is cut off inside a tool_use, or asks for a
      client-side tool, and who then speaks again instead, makes the request send an unpaired history. */
  lemma {:induction false} UnguardedSends(cut: bool)
    ensures var w := Answering(Reply(if cut then MaxTokens else ToolUseStop, [USE]));
            var r := Say(Some(0), "b", None);
            var db := Exec(w, NEW, Say(None, "a", None)).0;
            var sent := Exec(w, db, r).1.sent;
            && Fresh(NEW) && WorldOk(w) && !Guarded(w, db, r)
            && |sent| == 1 && !Paired(Build(sent[0].steps))
  {
    hide Exec, Paired;
    var w := Answering(Reply(if cut then MaxTokens else ToolUseStop, [USE]));
    AskedOnce();
    assert WorldOk(w);
    hide WorldOk;
    if cut { CutOff(w); } else { Asked(); }
    var db := Exec(w, NEW, Say(None, "a", None)).0;
    SaysOver(w, db, cut);
    var c := db.sessions[0].chat;
    if cut { assert "x" in ToolIds([USE]); assert IsCut(c.steps[1]); } else { assert IsPending(c, 2); }
  }

  // ---- results delivered again ----

  const RESULT := ResultItem(2, Some("r"), None)

  /** The history after the first call is answered. */
  function Resulted(): Chat {
    Chat(Asking(false) + [Step(1, Tool(2, "x", "files.read", Some("r"), None))],
         map[2 := Call(1, "files.read", "", "x", Completed, Some("r"))])
  }

  /** A new user asks, a call is handed over, and its result is answered with `reply`. */
  function Resulting(reply: Reply): seq<Event> {
    [LateResult()[0], Event(Replying(3, reply), ToolResult(0, [RESULT]))]
  }

  lemma {:induction false} PlayTwo(db: Database, e: seq<Event>)
    requires |e| == 2
    ensures var one := Exec(e[0].world, db, e[0].request).0;
            Play(db, e[..1]) == one && Play(db, e) == Exec(e[1].world, one, e[1].request).0
  {
    hide Exec;
    assert e[..1][..0] == [];
    assert Play(db, e[..1]) == Exec(e[0].world, db, e[0].request).0;
  }

  /** The database when the result arrives, and what its generation starts from. */
  lemma {:induction false} ResultStarts(reply: Reply)
    ensures var e := Resulting(reply);
            var db := Play(NEW, e[..1]);
            && db == Alone(Chat(Asking(false), map[2 := Call(1, "files.read", "", "x", Pending, None)]), OPENED, 3)
            && Generates(e[1].world, db, e[1].request) && BaseOf(e[1].world, db, e[1].request).Some?
            && BaseOf(e[1].world, db, e[1].request).value == Base(Store(Resulted(), OPENED), 3, 1)
  {
    hide Exec;
    var e := Resulting(reply);
    Asked();
    PlayTwo(NEW, e);
    var db := Play(NEW, e[..1]);
    assert Interleaved().steps[..2] == Asking(false);
    TrialAllows(db);
    var c := db.sessions[0].chat;
    var items := [RESULT];
    assert items[1..] == [];
    assert ApplyResults(c, items) == Resulted();
    assert Resolve(c, items, None).0 == Some(1) by { assert items[0] in items; }
    assert PendingClient(e[1].world, Resulted(), 1) == {};
    assert NextStepAfter(Resulted(), 1, 2) == None by { NothingBehind(); }
  }

  lemma {:induction false} NothingBehind()
    ensures NextStepAfter(Resulted(), 1, 2) == None
  {
    var s := Resulted().steps;
    assert IsResult(1, 2)(s[2]) && !IsResult(1, 2)(s[0]) && !IsResult(1, 2)(s[1]);
  }

  /** The continuation is cut off, which is free. */
  lemma {:induction false} HalfSaid()
    ensures var e := Resulting(Reply(MaxTokens, [Text("half")]));
            var (db, now) := (Play(NEW, e[..1]), Play(NEW, e));
            && now == Exec(e[1].world, db, e[1].request).0 && now.account == OPENED
            && ModeOf(now, e[1].request) == Some(Policy.Credits)
            && BaseOf(e[1].world, db, e[1].request).Some?
            && Exec(e[1].world, db, e[1].request).1.out.MaxTokensOut?
            && e[1].world.model(0, Build(BaseOf(e[1].world, db, e[1].request).value.store.chat.steps)) ==
               Reply(MaxTokens, [Text("half")])
            && Fresh(NEW) && SameCost(1, e)
  {
    hide Exec, Generates, BaseOf, Play;
    var half := [Text("half")];
    var e := Resulting(Reply(MaxTokens, half));
    ResultStarts(Reply(MaxTokens, half));
    ReplyCut(e[1].world, Play(NEW, e[..1]), e[1].request, half);
    PlayTwo(NEW, e);
  }

  lemma {:induction false} SayingsOk()
    ensures WorldsOk(Resulting(Reply(MaxTokens, [Text("half")])))
  {
    AskedOnce();
    assert [Text("half")][1..] == [];
    assert ToolUses([Text("half")]) == [];
  }

  /** A replay may show as an answer what nobody has paid for: here the result is delivered again after its
      continuation was cut off. */
  lemma {:induction false} UnpaidReplay()
    ensures var e := Resulting(Reply(MaxTokens, [Text("half")]));
            var now := Play(NEW, e);
            var (after, trace) := Exec(e[1].world, now, e[1].request);
            && Fresh(NEW) && SameCost(1, e) && WorldsOk(e) && ModeOf(now, e[1].request) == Some(Policy.Credits)
            && trace.out == Replay("half")
            && after.account == OPENED && !PaidFor(after.account, 1)
  {
    hide Exec, BaseOf, Play, DbInv, Fresh, ModeOf, FollowUpText;
    var half := [Text("half")];
    assert TextOf(half) == "half" by { assert half[1..] == []; }
    var e := Resulting(Reply(MaxTokens, half));
    HalfSaid();
    assert WorldsOk(e) by { SayingsOk(); }
    hide WorldsOk;
    FreshHolds(1, NEW);
    PlayKeeps(1, NEW, e[..1]);
    PlayKeeps(1, NEW, e);
    RedeliveryRepeatsFirst(1, e[1].world, Play(NEW, e[..1]), e[1].request);
    ReplayRepeats(1, e[1].world, Play(NEW, e), e[1].request);
  }

  /** The session with a second call handed over. */
  function TwoCalls(): Chat {
    Chat(Resulted().steps + [Step(1, Assistant([ToolUse("y", "files.read", "")], false))],
         Resulted().calls[3 := Call(1, "files.read", "", "y", Pending, None)])
  }

  /** Merging a late repetition with a new result stops the turn: with the answered call first, the batch
      replays what was stored; with the open call first, the turn goes on. */
  lemma {:induction false} MergedReplays()
    ensures var again := ToolUse("y", "files.read", "");
            var e := Resulting(Reply(ToolUseStop, [again]));
            var now := Play(NEW, e);
            var w := Replying(0, Unavailable);
            var late := ResultItem(3, Some("r"), None);
            && Fresh(NEW) && SameCost(1, e)
            && now.sessions.Keys == {0} && now.sessions[0].chat == TwoCalls()
            && Exec(w, now, ToolResult(0, [RESULT, late])).1.out == Replay("")
            && !Exec(w, now, ToolResult(0, [late, RESULT])).1.out.Replay?
            && Exec(w, Exec(w, now, ToolResult(0, [RESULT])).0, ToolResult(0, [late])) !=
               Exec(w, now, ToolResult(0, [RESULT] + [late]))
  {
    hide Exec, Play, Fresh, DbInv, TwoCalls;
    var e := Resulting(Reply(ToolUseStop, [ToolUse("y", "files.read", "")]));
    TwoCallsReached();
    BatchOrders(Play(NEW, e));
  }

  lemma {:induction false} TwoCallsReached()
    ensures var e := Resulting(Reply(ToolUseStop, [ToolUse("y", "files.read", "")]));
            var now := Play(NEW, e);
            Fresh(NEW) && SameCost(1, e) && now.sessions.Keys == {0} && now.sessions[0].chat == TwoCalls()
                && DbInv(1, now)
  {
    hide Exec, Generates, BaseOf;
    var again := ToolUse("y", "files.read", "");
    var e := Resulting(Reply(ToolUseStop, [again]));
    var db := Play(NEW, e[..1]);
    ResultStarts(Reply(ToolUseStop, [again]));
    HandedOff(e[1].world, db, e[1].request, again, "");
    PlayTwo(NEW, e);
    FreshHolds(1, NEW);
    PlayKeeps(1, NEW, e);
  }

  lemma {:induction false} BatchOrders(now: Database)
    requires DbInv(1, now) && now.sessions.Keys == {0} && now.sessions[0].chat == TwoCalls()
    ensures var w := Replying(0, Unavailable);
            var late := ResultItem(3, Some("r"), None);
            && Exec(w, now, ToolResult(0, [RESULT, late])).1.out == Replay("")
            && !Exec(w, now, ToolResult(0, [late, RESULT])).1.out.Replay?
            && Exec(w, Exec(w, now, ToolResult(0, [RESULT])).0, ToolResult(0, [late])) !=
               Exec(w, now, ToolResult(0, [RESULT] + [late]))
  {
    hide Exec, DbInv, FollowUp, Unanswered, FollowUpText;
    var w := Replying(0, Unavailable);
    var late := ResultItem(3, Some("r"), None);
    TwoCallsFollow(w, late);
    assert [RESULT] + [late] == [RESULT, late];
    ReplaysExactly(1, w, now, ToolResult(0, [RESULT, late]), 1);
    ReplayRepeats(1, w, now, ToolResult(0, [RESULT, late]));
    ReplaysExactly(1, w, now, ToolResult(0, [late, RESULT]), 1);
    ClosedBarrierMerges(1, w, now, 0, 1, [RESULT], [late]);
  }

  lemma {:induction false} TwoCallsFollow(w: World, late: ResultItem)
    requires w == Replying(0, Unavailable) && late == ResultItem(3, Some("r"), None)
    ensures var c := TwoCalls();
            && FollowUp(c, 2) == Some(3) && FollowUp(c, 3) == None && FollowUpText(c, 2) == Some("")
                && FollowUpText(c, 3) == None
            && Unanswered(w, c, 1, [RESULT]) != {}
            && Unanswered(w, c, 1, [RESULT, late]) == {} && Unanswered(w, c, 1, [late, RESULT]) == {}
  {
    var c := TwoCalls();
    var s := c.steps;
    assert IsResult(1, 2)(s[2]) && !IsResult(1, 2)(s[0]) && !IsResult(1, 2)(s[1]) && IsAssistant(1)(s[3]);
    assert FirstIndex(s, 0, IsResult(1, 2)) == Some(2);
    assert FirstIndex(s, 3, IsAssistant(1)) == Some(3);
    assert FirstIndex(s, 0, IsResult(1, 3)) == None;
    assert TextOf(s[3].body.content) == "" by { assert s[3].body.content[1..] == []; }
    assert 3 in PendingClient(w, c, 1) && PendingClient(w, c, 1) == {3};
    assert FirstFor([RESULT], 3).None?;
    assert late in [RESULT, late] && late in [late, RESULT];
    assert 3 in Unanswered(w, c, 1, [RESULT]);
    assert FirstFor([RESULT, late], 3).Some? by { assert [RESULT, late][1] == late; }
    assert FirstFor([late, RESULT], 3).Some?;
  }
}
