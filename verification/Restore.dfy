/** Editing a message brings back the history its turn once extended. */
module Restore {
  import opened Wallet
  import opened Records
  import opened Repository
  import opened Engine
  import opened Money
  import opened History
  import opened Pairing
  import opened Growth
  import opened TurnSafety
  import opened Runs
  import opened Responses
  import opened PairedRuns
  import Policy

  /** `d` is `c` after more steps: a call whose row changed, or that is new, belongs to a turn that has
      a step after those of `c`. */
  ghost predicate Extends(c: Chat, d: Chat) {
    && c.steps <= d.steps
    && (forall id :: id in c.calls ==>
          && id in d.calls && d.calls[id].turn == c.calls[id].turn
          && (d.calls[id] == c.calls[id] || c.calls[id].turn in Turns(d.steps[|c.steps|..])))
    && (forall id :: id in d.calls && id !in c.calls ==> d.calls[id].turn in Turns(d.steps[|c.steps|..]))
  }

  /** Cutting what was added restores the earlier history, precisely when no turn of its tool calls
      has gone on since. */
  lemma {:induction false} CutRestores(c: Chat, d: Chat)
    requires Extends(c, d)
    ensures CutAt(d, |c.steps|) == c <==>
            forall id :: id in c.calls ==> c.calls[id].turn !in Turns(d.steps[|c.steps|..])
    ensures CallsHaveSteps(c) && !Straddles(d, |c.steps|) ==> CutAt(d, |c.steps|) == c
  {
    var gone := Turns(d.steps[|c.steps|..]);
    assert d.steps[..|c.steps|] == c.steps;
    if forall id :: id in c.calls ==> c.calls[id].turn !in gone {
      assert CutAt(d, |c.steps|).calls == c.calls;
    } else {
      var id :| id in c.calls && c.calls[id].turn in gone;
      assert id !in CutAt(d, |c.steps|).calls;
    }
    if CallsHaveSteps(c) && !Straddles(d, |c.steps|) {
      forall id | id in c.calls ensures c.calls[id].turn !in gone { assert id in d.calls; }
    }
  }

  ghost predicate HasCall(c: Chat, turn: Id) { exists id :: id in c.calls && c.calls[id].turn == turn }

  /** A turn of `c` that has gone on in `d` did so through a tool call that `c` holds. */
  ghost predicate Linked(c: Chat, d: Chat)
    requires |c.steps| <= |d.steps|
  {
    forall t :: t in Turns(c.steps) && t in Turns(d.steps[|c.steps|..]) ==> HasCall(c, t)
  }

  /** Then the cut restores the earlier history precisely when no turn straddles it. */
  lemma {:induction false} CutRestoresExactly(c: Chat, d: Chat)
    requires Extends(c, d) && Linked(c, d) && CallsHaveSteps(c)
    ensures CutAt(d, |c.steps|) == c <==> !Straddles(d, |c.steps|)
  {
    hide CutAt, CallsHaveSteps;
    CutRestores(c, d);
    assert d.steps[..|c.steps|] == c.steps;
    if Straddles(d, |c.steps|) {
      var id :| id in d.calls && d.calls[id].turn in Turns(c.steps) && d.calls[id].turn in Turns(d.steps[|c.steps|..]);
      assert HasCall(c, d.calls[id].turn);
    }
  }

  /** Steps of one turn added to `c`: of a turn that has a call there, or none of whose steps `c0` has. */
  lemma {:induction false} LinkedGrows(c0: Chat, c: Chat, d: Chat, t: Id)
    requires Extends(c0, c) && Linked(c0, c) && c.steps <= d.steps
    requires forall k :: |c.steps| <= k < |d.steps| ==> d.steps[k].turn == t
    requires HasCall(c, t) || t !in Turns(c0.steps)
    ensures Linked(c0, d)
  {
    var k := |c0.steps|;
    TurnsFrom(c.steps, d.steps, k);
    forall u | u in Turns(c0.steps) && u in Turns(d.steps[k..]) ensures HasCall(c0, u) {
      if u !in Turns(c.steps[k..]) {
        var i :| 0 <= i < |d.steps[|c.steps|..]| && d.steps[|c.steps|..][i].turn == u;
        assert d.steps[|c.steps| + i].turn == t;
        var id :| id in c.calls && c.calls[id].turn == t;
        assert id in c0.calls;
      }
    }
  }

  lemma {:induction false} LinkedCut(c: Chat, d: Chat, m: nat)
    requires c.steps <= d.steps && |c.steps| <= m <= |d.steps| && Linked(c, d)
    ensures Linked(c, CutAt(d, m))
  {
    var k := |c.steps|;
    TurnsFrom(d.steps[..m], d.steps, k);
    assert CutAt(d, m).steps[k..] == d.steps[..m][k..];
  }

  lemma {:induction false} TurnsFrom(a: seq<Step>, b: seq<Step>, k: nat)
    requires a <= b && k <= |a|
    ensures Turns(b[k..]) == Turns(a[k..]) + Turns(b[|a|..])
  {
    assert b[k..] == a[k..] + b[|a|..];
    forall s | s in b[k..] ensures s in a[k..] || s in b[|a|..] { }
    forall s | s in a[k..] || s in b[|a|..] ensures s in b[k..] { }
  }

  lemma {:induction false} ExtendsTrans(c: Chat, d: Chat, e: Chat)
    requires Extends(c, d) && Extends(d, e)
    ensures Extends(c, e)
  {
    hide Turns;
    assert e.steps[..|d.steps|] == d.steps;
    TurnsFrom(d.steps, e.steps, |c.steps|);
  }

  lemma {:induction false} ExtendsSelf(c: Chat)
    ensures Extends(c, c)
  {
  }

  lemma {:induction false} ExtendsStep(c: Chat, turn: Id, body: Body)
    ensures Extends(c, AddStep(c, turn, body))
  {
  }

  lemma {:induction false} ExtendsGrew(c: Chat, d: Chat, n: Id, turn: Id)
    requires ChatGrew(c, d, n, turn)
    ensures Extends(c, d)
  {
    if |c.steps| < |d.steps| {
      assert d.steps[|c.steps|..][0].turn == turn;
    }
  }

  lemma {:induction false} ExtendsAnswer(c: Chat, id: Id, result: Option<string>, error: Option<string>)
    requires id in c.calls
    ensures Extends(c, Answer(c, id, result, error))
  {
    var d := Answer(c, id, result, error);
    if c.calls[id].status.Pending? {
      var s := d.steps[|c.steps|];
      assert d.steps[|c.steps|..] == [s];
      assert s in d.steps[|c.steps|..];
    }
  }

  lemma {:induction false} ExtendsApply(c: Chat, items: seq<ResultItem>)
    ensures Extends(c, ApplyResults(c, items))
    decreases |items|
  {
    hide Extends, Answer;
    ExtendsSelf(c);
    if items != [] {
      if items[0].call in c.calls {
        var d := Answer(c, items[0].call, items[0].result, items[0].error);
        ExtendsAnswer(c, items[0].call, items[0].result, items[0].error);
        ExtendsApply(d, items[1..]);
        ExtendsTrans(c, d, ApplyResults(d, items[1..]));
      } else {
        ExtendsApply(c, items[1..]);
      }
    }
  }

  /** A cut at a later user step that no turn straddles changes nothing for an earlier one. */
  lemma {:induction false} ExtendsCut(c: Chat, d: Chat, m: nat)
    requires Extends(c, d) && |c.steps| <= m <= |d.steps| && CallsHaveSteps(c) && !Straddles(d, m)
    ensures Extends(c, CutAt(d, m))
  {
    var e := CutAt(d, m);
    var k := |c.steps|;
    assert d.steps[..m] <= d.steps;
    TurnsFrom(d.steps[..m], d.steps, k);
    assert e.steps[k..] == d.steps[..m][k..];
    forall id | id in c.calls ensures id in e.calls {
      assert id in d.calls && c.calls[id].turn in Turns(c.steps);
      var i :| 0 <= i < k && c.steps[i].turn == c.calls[id].turn;
      assert d.steps[..m][i].turn == c.calls[id].turn;
    }
  }

  /** For every turn, the history its run extended. */
  type Origins = map<Id, Chat>

  function TurnOf(db: Database, r: Request): Id
    requires r.Run?
  {
    if Target(db, r).2 then db.next + 1 else db.next
  }

  function NextOrigins(o: Origins, db: Database, r: Request): Origins {
    if r.Run? && Extended(db, r).Some? then o[TurnOf(db, r) := Extended(db, r).value] else o
  }

  function OriginsOf(db: Database, events: seq<Event>): Origins {
    if events == [] then map[]
    else
      var n := |events| - 1;
      NextOrigins(OriginsOf(db, events[..n]), Play(db, events[..n]), events[n].request)
  }

  ghost predicate StepOrigin(o: Origins, c: Chat, k: nat)
    requires k < |c.steps|
  {
    var turn := c.steps[k].turn;
    turn in o && |o[turn].steps| == k && Extends(o[turn], c) && Linked(o[turn], c) && CallsHaveSteps(o[turn])
  }

  /** Turn `t` may go on: it has a call, or no origin holds a step of it. */
  ghost predicate Continuable(o: Origins, c: Chat, t: Id) {
    || HasCall(c, t)
    || forall k :: 0 <= k < |c.steps| && c.steps[k].body.User? && c.steps[k].turn in o ==>
        t !in Turns(o[c.steps[k].turn].steps)
  }

  ghost predicate ChatOrigins(o: Origins, c: Chat) {
    forall k :: 0 <= k < |c.steps| && c.steps[k].body.User? ==> StepOrigin(o, c, k)
  }

  ghost predicate DbOrigins(o: Origins, db: Database) {
    && (forall id :: id in db.sessions ==> ChatOrigins(o, db.sessions[id].chat))
    && (forall turn :: turn in o ==> turn < db.next)
  }

  /** An edit that the model allows to be exact: no turn has steps on both sides of its anchor. */
  ghost predicate CleanEdit(db: Database, r: Request) {
    r.Run? && r.request.edit.Some? && !Target(db, r).2 ==>
      var c := Target(db, r).1.chat;
      match FirstIndex(c.steps, 0, IsUser(r.request.edit.value))
      case None => true
      case Some(m) => !Straddles(c, m)
  }

  ghost predicate CleanEdits(db: Database, events: seq<Event>) {
    forall i :: 0 <= i < |events| ==> CleanEdit(Play(db, events[..i]), events[i].request)
  }

  lemma {:induction false} OriginsExtend(o: Origins, c: Chat, d: Chat, t: Id)
    requires ChatOrigins(o, c) && Extends(c, d) && Continuable(o, c, t)
    requires forall k :: |c.steps| <= k < |d.steps| ==> d.steps[k].turn == t && !d.steps[k].body.User?
    ensures ChatOrigins(o, d)
  {
    hide Extends, Linked, Turns;
    assert c.steps <= d.steps by { ExtendsPrefix(c, d); }
    forall k | 0 <= k < |d.steps| && d.steps[k].body.User? ensures StepOrigin(o, d, k) {
      assert d.steps[k] == c.steps[k] && StepOrigin(o, c, k);
      var c0 := o[c.steps[k].turn];
      ExtendsTrans(c0, c, d);
      LinkedGrows(c0, c, d, t);
    }
  }

  lemma {:induction false} ExtendsPrefix(c: Chat, d: Chat)
    requires Extends(c, d)
    ensures c.steps <= d.steps
  {
  }

  lemma {:induction false} PrefixTurns(a: seq<Step>, b: seq<Step>, t: Id)
    requires a <= b && t !in Turns(b)
    ensures t !in Turns(a)
  {
    forall s | s in a ensures s.turn != t {
      var i :| 0 <= i < |a| && a[i] == s;
      assert b[i] == s && s.turn in Turns(b);
    }
  }

  lemma {:induction false} LinkedNew(c: Chat, turn: Id, body: Body)
    requires turn !in Turns(c.steps)
    ensures Linked(c, AddStep(c, turn, body))
  {
    assert AddStep(c, turn, body).steps[|c.steps|..] == [Step(turn, body)];
  }

  lemma {:induction false} OriginsAsk(o: Origins, c: Chat, turn: Id, body: Body)
    requires ChatOrigins(o, c) && CallsHaveSteps(c) && turn !in o && turn !in Turns(c.steps)
    ensures ChatOrigins(o[turn := c], AddStep(c, turn, body))
    ensures Continuable(o[turn := c], AddStep(c, turn, body), turn)
  {
    hide Extends, Linked, Turns, HasCall, CallsHaveSteps;
    var d := AddStep(c, turn, body);
    ExtendsStep(c, turn, body);
    LinkedNew(c, turn, body);
    forall k | 0 <= k < |d.steps| && d.steps[k].body.User?
      ensures StepOrigin(o[turn := c], d, k) && turn !in Turns(o[turn := c][d.steps[k].turn].steps)
    {
      if k < |c.steps| {
        assert d.steps[k] == c.steps[k] && StepOrigin(o, c, k);
        var c0 := o[c.steps[k].turn];
        ExtendsTrans(c0, c, d);
        ExtendsPrefix(c0, c);
        PrefixTurns(c0.steps, c.steps, turn);
        LinkedGrows(c0, c, d, turn);
      }
    }
  }

  lemma {:induction false} OriginsCut(o: Origins, c: Chat, m: nat)
    requires ChatOrigins(o, c) && m <= |c.steps| && !Straddles(c, m)
    ensures ChatOrigins(o, CutAt(c, m))
  {
    hide Extends, Straddles, Linked;
    var d := CutAt(c, m);
    forall k | 0 <= k < |d.steps| && d.steps[k].body.User? ensures StepOrigin(o, d, k) {
      assert d.steps[k] == c.steps[k] && StepOrigin(o, c, k);
      ExtendsCut(o[c.steps[k].turn], c, m);
      ExtendsPrefix(o[c.steps[k].turn], c);
      LinkedCut(o[c.steps[k].turn], c, m);
    }
  }

  lemma {:induction false} OriginsMore(o: Origins, c: Chat, turn: Id, x: Chat)
    requires ChatOrigins(o, c) && turn !in o
    ensures ChatOrigins(o[turn := x], c)
  {
    forall k | 0 <= k < |c.steps| && c.steps[k].body.User? ensures StepOrigin(o[turn := x], c, k) {
      assert StepOrigin(o, c, k);
    }
  }

  /** A committed history of a generation, over the one it starts from. */
  lemma {:induction false} OriginsGrew(o: Origins, b: Base, s: Store, next: Id)
    requires ChatOrigins(o, b.store.chat) && Continuable(o, b.store.chat, b.turn) && StoreGrew(b, s, next)
    ensures ChatOrigins(o, s.chat)
  {
    hide ChatOrigins, Extends, AccountGrew, Continuable;
    ExtendsGrew(b.store.chat, s.chat, b.next, b.turn);
    OriginsExtend(o, b.store.chat, s.chat, b.turn);
  }

  lemma {:induction false} GenerationOrigins(w: World, o: Origins, turn: Id, mode: Policy.Mode, hasProject: bool,
                                             u: Unit)
    requires Starts(u) && Grounded(Base(u.work, u.next, turn))
    requires ChatOrigins(o, u.work.chat) && Continuable(o, u.work.chat, turn)
    ensures var p := Finish(Continue(w, turn, mode, hasProject, u)).0;
            u.next <= p.unit.next && forall i :: 0 <= i < |p.unit.log| ==> ChatOrigins(o, p.unit.log[i].chat)
  {
    hide StoreGrew, SentOk, Agrees, Continue, Finish, Grounded, ChatOrigins, Continuable;
    ContinueGrew(w, turn, mode, hasProject, u);
    var p := Finish(Continue(w, turn, mode, hasProject, u)).0;
    forall i | 0 <= i < |p.unit.log| ensures ChatOrigins(o, p.unit.log[i].chat) {
      OriginsGrew(o, Base(u.work, u.next, turn), p.unit.log[i], p.unit.next);
    }
  }

  lemma {:induction false} ExtendedOrigins(cost: int, o: Origins, db: Database, r: Request)
    requires DbInv(cost, db) && DbOrigins(o, db) && r.Run? && CleanEdit(db, r) && Extended(db, r).Some?
    ensures var c := Extended(db, r).value;
            && ChatOrigins(o, c) && ChatInv(c, db.account.initiated, db.next) && CallsHaveSteps(c)
            && TurnOf(db, r) !in Turns(c.steps)
  {
    hide AccountInv, ChatInv, ChatOrigins, CutAt, Straddles, CallsHaveSteps, Turns;
    var (id, s, isNew) := Target(db, r);
    if isNew {
      EmptyChat(db.account.initiated, db.next);
      assert ChatOrigins(o, Chat([], map[])) by { NoOrigins(o); }
    }
    if r.request.edit.Some? {
      var m := FirstIndex(s.chat.steps, 0, IsUser(r.request.edit.value)).value;
      OriginsCut(o, s.chat, m);
      TruncateKeeps(s.chat, db.account.initiated, db.next, r.request.edit.value);
    }
    InvHasSteps(Extended(db, r).value, db.account.initiated, db.next);
  }

  lemma {:induction false} NoOrigins(o: Origins)
    ensures ChatOrigins(o, Chat([], map[]))
  {
  }

  lemma {:induction false} InvHasSteps(c: Chat, initiated: map<Id, Id>, next: Id)
    requires ChatInv(c, initiated, next)
    ensures CallsHaveSteps(c) && forall t :: t in Turns(c.steps) ==> t < next
  {
    hide CallInv, CallsHaveSteps, ResultMatches;
    forall i | 0 <= i < |c.steps| ensures c.steps[i].turn < next { assert StepInv(c, initiated, next, c.steps[i]); }
  }

  lemma {:induction false} RunOrigins(cost: int, w: World, o: Origins, db: Database, r: Request)
    requires DbInv(cost, db) && w.cost == cost && DbOrigins(o, db) && r.Run? && CleanEdit(db, r)
    ensures DbOrigins(NextOrigins(o, db, r), Exec(w, db, r).0)
  {
    hide DbInv, ChatInv, Continue, Finish, Truncate, ChatOrigins, PendingClient, Grounded, CallsHaveSteps, CleanEdit,
      Turns, Continuable;
    var (id, s, isNew) := Target(db, r);
    var turn := TurnOf(db, r);
    var chat := Extended(db, r);
    if chat.None? {
      FinishRefused(Progress(Unit(Store(s.chat, db.account), [], turn + 1, [], false), [], [], []), MessageNotFound);
    } else {
      hide Exec;
      ExtendedOrigins(cost, o, db, r);
      var body := User(r.request.content, r.request.actionPrompt);
      NewTurnReady(cost, w, db, chat.value, turn, body);
      OriginsAsk(o, chat.value, turn, body);
      GenerationOrigins(w, o[turn := chat.value], turn, s.mode, s.hasProject, Opening(BaseOf(w, db, r).value));
      GenerationIs(w, db, r);
      forall k | k in db.sessions ensures ChatOrigins(o[turn := chat.value], db.sessions[k].chat) {
        OriginsMore(o, db.sessions[k].chat, turn, chat.value);
      }
    }
  }

  lemma {:induction false} ResultOrigins(cost: int, w: World, o: Origins, db: Database, r: Request)
    requires DbInv(cost, db) && w.cost == cost && DbOrigins(o, db) && r.ToolResult?
    ensures DbOrigins(o, Exec(w, db, r).0)
  {
    hide AccountInv, ChatInv, Continue, ChatOrigins, PendingClient, Grounded, ApplyResults, NextStepAfter, Continuable;
    if r.session in db.sessions && Resolve(db.sessions[r.session].chat, r.items, None).0.Some? {
      var s := db.sessions[r.session];
      AppliedOrigins(o, s.chat, r.items, Resolve(s.chat, r.items, None).0.value);
      if BaseOf(w, db, r).Some? {
        hide Exec, Finish;
        var b := BaseOf(w, db, r).value;
        ApplyKeeps(s.chat, db.account.initiated, db.next, r.items);
        CallsBelow(b.store.chat, db.account.initiated, db.next);
        GroundedIf(cost, b);
        GenerationOrigins(w, o, b.turn, s.mode, s.hasProject, Opening(b));
        GenerationIs(w, db, r);
      }
    }
  }

  /** Every item names a call of turn `t`. */
  ghost predicate AllOf(c: Chat, items: seq<ResultItem>, t: Id) {
    forall item :: item in items ==> item.call in c.calls && c.calls[item.call].turn == t
  }

  lemma {:induction false} AppliedOrigins(o: Origins, c: Chat, items: seq<ResultItem>, t: Id)
    requires ChatOrigins(o, c) && items != [] && AllOf(c, items, t)
    ensures ChatOrigins(o, ApplyResults(c, items)) && Continuable(o, ApplyResults(c, items), t)
  {
    hide ChatOrigins, ApplyResults;
    assert items[0] in items;
    ExtendsApply(c, items);
    AppliedSteps(c, items, t);
    assert items[0].call in ApplyResults(c, items).calls;
    hide Extends;
    OriginsExtend(o, c, ApplyResults(c, items), t);
  }

  lemma {:induction false} AppliedSteps(c: Chat, items: seq<ResultItem>, t: Id)
    requires AllOf(c, items, t)
    ensures var d := ApplyResults(c, items);
            && c.steps <= d.steps
            && forall k :: |c.steps| <= k < |d.steps| ==> d.steps[k].turn == t && !d.steps[k].body.User?
    decreases |items|
  {
    if items != [] {
      assert items[0] in items;
      var d := Answer(c, items[0].call, items[0].result, items[0].error);
      assert forall id :: id in c.calls ==> id in d.calls && d.calls[id].turn == c.calls[id].turn;
      AppliedSteps(d, items[1..], t);
    }
  }

  lemma {:induction false} NextGrowsBy(cost: int, w: World, db: Database, r: Request)
    requires DbInv(cost, db) && w.cost == cost
    ensures db.next <= Exec(w, db, r).0.next
  {
    hide DbInv, Exec, Commits, ChatInv;
    ExecKeeps(cost, w, db, r);
  }

  lemma {:induction false} ExecOrigins(cost: int, w: World, o: Origins, db: Database, r: Request)
    requires DbInv(cost, db) && w.cost == cost && DbOrigins(o, db) && CleanEdit(db, r)
    ensures DbOrigins(NextOrigins(o, db, r), Exec(w, db, r).0)
  {
    hide DbInv, ChatOrigins, CleanEdit, RunTurn, ToolResultTurn, Finish, Consume, Grant;
    match r
    case Run(_, _, _, _, _) => RunOrigins(cost, w, o, db, r);
    case ToolResult(_, _) => ResultOrigins(cost, w, o, db, r);
    case _ => NextGrowsBy(cost, w, db, r);
  }

  lemma {:induction false} CleanPrefix(cost: int, db: Database, events: seq<Event>, n: nat)
    requires SameCost(cost, events) && CleanEdits(db, events) && n <= |events|
    ensures SameCost(cost, events[..n]) && CleanEdits(db, events[..n])
  {
    hide Play, CleanEdit;
    var some := events[..n];
    forall i | 0 <= i < n ensures CleanEdit(Play(db, some[..i]), some[i].request) {
      assert some[i] == events[i] && some[..i] == events[..i];
    }
  }

  lemma {:induction false} FreshOrigins(db: Database)
    requires Fresh(db)
    ensures DbOrigins(map[], db)
  {
  }

  lemma {:induction false} PlayOrigins(cost: int, db: Database, events: seq<Event>)
    requires Fresh(db) && SameCost(cost, events) && CleanEdits(db, events)
    ensures DbOrigins(OriginsOf(db, events), Play(db, events))
  {
    hide DbInv, Exec, CleanEdit, DbOrigins, Fresh, NextOrigins;
    if events == [] {
      FreshOrigins(db);
    } else {
      var n := |events| - 1;
      CleanPrefix(cost, db, events, n);
      PlayOrigins(cost, db, events[..n]);
      FreshHolds(cost, db);
      PlayKeeps(cost, db, events[..n]);
      ExecOrigins(cost, events[n].world, OriginsOf(db, events[..n]), Play(db, events[..n]), events[n].request);
    }
  }

  /** The history that the request which began a turn extended. */
  function Origin(db: Database, events: seq<Event>, turn: Id): Chat
    requires turn in OriginsOf(db, events)
  {
    OriginsOf(db, events)[turn]
  }

  /** The place of a turn's user step in the session that a request works on. */
  function Anchor(now: Database, r: Request): nat
    requires r.Run? && r.request.edit.Some? && !Target(now, r).2 && Extended(now, r).Some?
  {
    FirstIndex(Target(now, r).1.chat.steps, 0, IsUser(r.request.edit.value)).value
  }

  /** Edit restores an exact prefix: in any run whose earlier edits were clean, editing the message of
      a turn brings back exactly the history that turn's request extended (as if it and everything after
      it had never happened), if and only if no tool call's turn has steps on both sides of it. */
  lemma {:induction false} EditUndoes(cost: int, db: Database, events: seq<Event>, r: Request)
    requires Fresh(db) && SameCost(cost, events) && CleanEdits(db, events)
    requires r.Run? && r.request.edit.Some? && !Target(Play(db, events), r).2
    requires Extended(Play(db, events), r).Some?
    ensures var now := Play(db, events);
            && r.request.edit.value in OriginsOf(db, events)
            && (Extended(now, r) == Some(Origin(db, events, r.request.edit.value)) <==>
                  !Straddles(Target(now, r).1.chat, Anchor(now, r)))
  {
    hide Exec, CutAt, Straddles, Extends, Linked, CallsHaveSteps;
    var now := Play(db, events);
    PlayOrigins(cost, db, events);
    var turn := r.request.edit.value;
    var c := Target(now, r).1.chat;
    var m := Anchor(now, r);
    var o := OriginsOf(db, events);
    assert ChatOrigins(o, c) && c.steps[m].turn == turn;
    assert StepOrigin(o, c, m);
    CutRestoresExactly(o[turn], c);
  }

  /** What the model then sees first: the history of before that turn, plus the new message; never a
      trace of the turns that the edit removed. */
  lemma {:induction false} EditSendsBefore(cost: int, db: Database, events: seq<Event>, w: World, r: Request)
    requires Fresh(db) && SameCost(cost, events) && CleanEdits(db, events)
    requires r.Run? && r.request.edit.Some? && !Target(Play(db, events), r).2
    requires Extended(Play(db, events), r).Some?
    requires !Straddles(Target(Play(db, events), r).1.chat, Anchor(Play(db, events), r))
    requires Exec(w, Play(db, events), r).1.sent != []
    ensures r.request.edit.value in OriginsOf(db, events)
    ensures var before := Origin(db, events, r.request.edit.value);
            var message := User(r.request.content, r.request.actionPrompt);
            var first := Exec(w, Play(db, events), r).1.sent[0];
            && first == AddStep(before, TurnOf(Play(db, events), r), message)
            && Build(first.steps) == Build(before.steps) + [ToMessage(Step(TurnOf(Play(db, events), r), message))]
  {
    hide Exec, Play, CutAt, Straddles, Fresh, SameCost, CleanEdits, OriginsOf, Truncate, FirstIndex;
    var now := Play(db, events);
    EditUndoes(cost, db, events, r);
    FirstSent(w, now, r);
    ScanSnoc(Origin(db, events, r.request.edit.value).steps,
             Step(TurnOf(now, r), User(r.request.content, r.request.actionPrompt)));
  }

  /** A late result: turn 1 asked for a call, turn 3 spoke before the result arrived. */
  function Interleaved(): Chat {
    Chat([Step(1, User([Text("a")], None)),
          Step(1, Assistant([ToolUse("x", "files.read", "")], false)),
          Step(3, User([Text("b")], None)),
          Step(1, Tool(2, "x", "files.read", Some("r"), None))],
         map[2 := Call(1, "files.read", "", "x", Completed, Some("r"))])
  }

  lemma {:induction false} InterleavedHolds()
    ensures ChatInv(Interleaved(), map[2 := 1], 4)
  {
    var c := Interleaved();
    assert ResultCount(c.steps, 2) == 1 by {
      assert c.steps == c.steps[..3] + [c.steps[3]];
      ResultCountSnoc(c.steps[..3], c.steps[3], 2);
      ResultCountZero(c.steps[..3], 2);
    }
    hide ResultCount;
    assert c.steps[0].turn in Turns(c.steps);
    assert ResultMatches(c.steps[3], c.calls[2]);
    hide ResultMatches;
  }

  lemma {:induction false} InterleavedCut()
    ensures var c := Interleaved();
            && Straddles(c, 2)
            && CutAt(c, 2) == Chat(c.steps[..2], map[])
            && Truncate(c, 3) == Some(CutAt(c, 2))
  {
    var c := Interleaved();
    assert c.steps[..2][0].turn == 1 && c.steps[2..][1].turn == 1;
    assert c.calls[2].turn in Turns(c.steps[2..]);
    assert CutAt(c, 2).calls == map[];
    assert IsUser(3)(c.steps[2]);
  }

  lemma {:induction false} InterleavedWaits()
    ensures Open(Chat(Interleaved().steps[..2], map[])) == Some({"x"})
  {
    var s := Interleaved().steps;
    assert Build([]) == [];
    ScanSnoc([], s[0]);
    ScanSnoc([s[0]], s[1]);
    assert s[..2] == [s[0]] + [s[1]] && [] + [s[0]] == [s[0]];
    var asked := s[1].body.content;
    assert asked[0] in asked && ToolIds(asked) == {"x"};
    hide Scan;
  }

  /** Why edits must not straddle: here the edit of turn 3 deletes the answered call of turn 1 together
      with its result, and leaves a tool_use that no row remembers and nothing will ever answer. */
  lemma {:induction false} StraddlingEditLosesCall()
    ensures var c := Interleaved();
            && ChatInv(c, map[2 := 1], 4)
            && Straddles(c, 2)
            && Truncate(c, 3) == Some(CutAt(c, 2))
            && !Ready(CutAt(c, 2)) && !Loose(CutAt(c, 2))
  {
    hide Open, ChatInv, Straddles, Truncate, CutAt;
    InterleavedHolds();
    InterleavedCut();
    InterleavedWaits();
    assert "x" in {"x"};
  }
}
