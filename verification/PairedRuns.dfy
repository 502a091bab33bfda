/** Over any run of requests: which guard keeps every history sent to the model paired. */
module PairedRuns {
  import opened Wallet
  import opened Records
  import opened Repository
  import opened Engine
  import opened Pairing
  import opened Money
  import opened History
  import opened Growth
  import opened TurnSafety
  import opened Runs
  import opened Responses
  import opened Conversation
  import Policy

  /** Nothing appended so far makes the history unacceptable for good. */
  ghost predicate Intact(c: Chat) { PairInv(c) && Open(c).Some? }

  ghost predicate SessionsIntact(db: Database) {
    forall id :: id in db.sessions ==> Intact(db.sessions[id].chat)
  }

  /** A transcript of texts, as a temporary chat receives it. */
  ghost predicate Plain(transcript: seq<Body>) {
    forall b :: b in transcript ==> !b.Tool? && (b.Assistant? ==> !b.cut && ToolIds(b.content) == {})
  }

  /** What a caller can check in the tables before the request: no unanswered call, and no reply cut
      off inside a tool_use, in the history that the request would extend. An edit always may. */
  ghost predicate Guarded(w: World, db: Database, r: Request) {
    match r
    case Run(_, _, _, _, q) => q.edit.Some? || !Loose(Target(db, r).1.chat)
    case TemporaryRun(transcript, _, _) => Plain(transcript)
    case ToolResult(_, _) => BaseOf(w, db, r).Some? ==> !Loose(BaseOf(w, db, r).value.store.chat)
    case _ => true
  }

  lemma {:induction false} EmptyIntact()
    ensures Intact(Chat([], map[])) && !Loose(Chat([], map[]))
  {
  }

  /** Cutting an intact history at any user step leaves one the provider accepts. */
  lemma {:induction false} EditIsReady(c: Chat, k: nat)
    requires Intact(c) && k < |c.steps| && c.steps[k].body.User?
    ensures Intact(CutAt(c, k)) && Ready(CutAt(c, k)) && forall id :: !IsPending(CutAt(c, k), id)
  {
    hide Scan;
    var d := CutAt(c, k);
    assert c.steps[..k + 1] == c.steps[..k] + [c.steps[k]];
    OpenPrefix(c.steps, k + 1);
    ScanSnoc(c.steps[..k], c.steps[k]);
    assert NoCut(d.steps) by { NoCutBefore(c, k); }
    forall id ensures !IsPending(d, id) { CutDropsPending(c, k, id); }
    assert Ids([]) == {};
  }

  lemma {:induction false} NoCutBefore(c: Chat, k: nat)
    requires Intact(c) && k < |c.steps| && c.steps[k].body.User?
    ensures NoCut(c.steps[..k])
  {
    hide Scan, Asker;
    var n := |c.steps| - 1;
    forall i | 0 <= i < k ensures !IsCut(c.steps[..k][i]) {
      assert c.steps[..k][i] == c.steps[i];
      if !MidInv(c, []) { assert c.steps[..n][i] == c.steps[i]; }
    }
  }

  /** Pending calls belong to the turn that spoke last, so an edit removes them. */
  lemma {:induction false} CutDropsPending(c: Chat, k: nat, id: Id)
    requires Intact(c) && k < |c.steps| && c.steps[k].body.User?
    ensures !IsPending(CutAt(c, k), id)
  {
    hide Scan;
    if IsPending(c, id) {
      assert MidInv(c, []);
      var turn := c.calls[id].turn;
      assert Asker(c.steps) == Some(turn);
      var i :| 0 <= i < |c.steps| && c.steps[i].turn == turn && forall j :: i < j < |c.steps| ==> c.steps[j].body.Tool?;
      assert k <= i;
      assert c.steps[k..][i - k].turn == turn;
    }
  }

  lemma {:induction false} ApplyKeepsPair(c: Chat, items: seq<ResultItem>)
    requires PairInv(c)
    ensures PairInv(ApplyResults(c, items)) && (Open(c).Some? <==> Open(ApplyResults(c, items)).Some?)
    decreases |items|
  {
    hide PairInv, Open;
    if items != [] {
      var x := items[0];
      if x.call in c.calls {
        if IsPending(c, x.call) {
          AnswerKeepsPair(c, x.call, Tool(x.call, c.calls[x.call].provider, c.calls[x.call].tool, x.result, x.error));
        }
        ApplyKeepsPair(Answer(c, x.call, x.result, x.error), items[1..]);
      } else {
        ApplyKeepsPair(c, items[1..]);
      }
    }
  }

  /** The history a run extends after its edit, if any. */
  function Extended(db: Database, r: Request): Option<Chat>
    requires r.Run?
  {
    var (id, s, isNew) := Target(db, r);
    if r.request.edit.None? then Some(s.chat) else if isNew then None else Truncate(s.chat, r.request.edit.value)
  }

  lemma {:induction false} ExtendedIntact(db: Database, r: Request)
    requires SessionsIntact(db) && r.Run? && Extended(db, r).Some?
    ensures Intact(Extended(db, r).value)
    ensures r.request.edit.Some? ==> Ready(Extended(db, r).value)
  {
    hide Intact, Ready, CutAt;
    var (id, s, isNew) := Target(db, r);
    if isNew { EmptyIntact(); }
    if r.request.edit.Some? {
      EditIsReady(s.chat, FirstIndex(s.chat.steps, 0, IsUser(r.request.edit.value)).value);
    }
  }

  /** The guard is the exact condition for a run to send paired histories. */
  lemma {:induction false} BaseReady(w: World, db: Database, r: Request)
    requires SessionsIntact(db) && (r.Run? || r.ToolResult?) && BaseOf(w, db, r).Some?
    ensures var c := BaseOf(w, db, r).value.store.chat; PairInv(c) && (Ready(c) <==> Guarded(w, db, r))
  {
    hide PairInv, Ready, Open, Loose, ApplyResults, PendingClient, NextStepAfter, Truncate;
    if r.Run? {
      ExtendedIntact(db, r);
      var c := Extended(db, r).value;
      GuardDecidesReady(c);
      var turn := BaseOf(w, db, r).value.turn;
      SpeakKeepsPair(c, turn, User(r.request.content, r.request.actionPrompt));
      OpenReady(AddStep(c, turn, User(r.request.content, r.request.actionPrompt)));
    } else {
      var c := db.sessions[r.session].chat;
      ApplyKeepsPair(c, r.items);
      GuardDecidesReady(ApplyResults(c, r.items));
    }
  }

  /** What a request on an intact session sends and commits. */
  ghost predicate Sends(w: World, db: Database, r: Request, trace: Trace) {
    && (forall i :: 0 <= i < |trace.sent| ==> (Paired(Build(trace.sent[i].steps)) <==> Guarded(w, db, r)))
    && (Guarded(w, db, r) ==> forall i :: 0 <= i < |trace.log| ==> Intact(trace.log[i].chat))
  }

  lemma {:induction false} ContinueSendsPaired(w: World, db: Database, r: Request, turn: Id, mode: Policy.Mode,
                                               hasProject: bool, u: Unit)
    requires WorldOk(w) && Starts(u) && Grounded(Base(u.work, u.next, turn)) && !u.temporary
    requires PairInv(u.work.chat) && (Ready(u.work.chat) <==> Guarded(w, db, r))
    ensures var (p, out) := Finish(Continue(w, turn, mode, hasProject, u));
            Sends(w, db, r, Trace(out, p.unit.log, p.unit.sent))
  {
    hide PairInv, Open, Continue, Finish, Guarded, Paired, Grounded, WorldOk;
    GenerationPairs(w, turn, mode, hasProject, u);
    ScanDecidesPaired(Build(u.work.chat.steps));
    assert Ready(u.work.chat) <==> Paired(Build(u.work.chat.steps)) by { ReadyScan(u.work.chat); }
  }

  lemma {:induction false} ReadyScan(c: Chat)
    ensures Ready(c) <==> Scan(Build(c.steps)) == Some({})
  {
  }

  /** For every run on an intact session: each history it sends is paired if and only if the guard
      holds, and if it does, every state it commits is intact again. */
  lemma {:induction false} RunSendsPaired(cost: int, w: World, db: Database, r: Request)
    requires DbInv(cost, db) && w.cost == cost && WorldOk(w) && SessionsIntact(db) && r.Run?
    ensures Sends(w, db, r, Exec(w, db, r).1)
  {
    hide AccountInv, ChatInv, Continue, Finish, Truncate, Sends, Guarded, PendingClient, Grounded, WorldOk, PairInv,
        Ready, Open;
    var (id, s, isNew) := Target(db, r);
    var turn := if isNew then db.next + 1 else db.next;
    var chat := Extended(db, r);
    if chat.Some? {
      hide Exec;
      var body := User(r.request.content, r.request.actionPrompt);
      if isNew {
        EmptyChat(db.account.initiated, db.next);
      } else if r.request.edit.Some? {
        TruncateKeeps(s.chat, db.account.initiated, db.next, r.request.edit.value);
      }
      assert ChatInv(chat.value, db.account.initiated, db.next);
      NewTurnReady(cost, w, db, chat.value, turn, body);
      BaseReady(w, db, r);
      ContinueSendsPaired(w, db, r, turn, s.mode, s.hasProject, Opening(BaseOf(w, db, r).value));
      GenerationIs(w, db, r);
    } else {
      FinishSame(RunTurn(w, s, isNew, r.request, Unit(Store(s.chat, db.account), [], turn, [], false)));
      FinishRefused(Progress(Unit(Store(s.chat, db.account), [], turn + 1, [], false), [], [], []), MessageNotFound);
      NothingSent(w, db, r, Raised(MessageNotFound));
    }
  }

  lemma {:induction false} FinishRefused(p: Progress, e: Error)
    requires p.unit.log == []
    ensures Finish((p, Raised(e))) == (p, Raised(e))
  {
  }

  lemma {:induction false} NothingSent(w: World, db: Database, r: Request, out: Outcome)
    ensures Sends(w, db, r, Trace(out, [], []))
  {
  }

  lemma {:induction false} OneCommitSent(w: World, db: Database, r: Request, u: Unit, out: Outcome)
    requires Starts(u) && Intact(u.work.chat)
    ensures Sends(w, db, r, Trace(out, Commit(u).log, []))
    ensures Sends(w, db, r, Trace(out, Commit(Commit(u)).log, []))
  {
    hide Intact, Guarded;
  }

  lemma {:induction false} ResultSendsPaired(cost: int, w: World, db: Database, r: Request)
    requires DbInv(cost, db) && w.cost == cost && WorldOk(w) && SessionsIntact(db) && r.ToolResult?
        && r.session in db.sessions
    ensures Sends(w, db, r, Exec(w, db, r).1)
  {
    hide AccountInv, ChatInv, Continue, Sends, Guarded, PendingClient, Grounded, WorldOk, PairInv, Ready, Open,
        ApplyResults, NextStepAfter;
    var s := db.sessions[r.session];
    var (turn, error) := Resolve(s.chat, r.items, None);
    var u := Unit(Store(s.chat, db.account), [], db.next, [], false);
    if turn.None? {
      NothingSent(w, db, r, Raised(error));
    } else {
      var v := SetChat(u, ApplyResults(s.chat, r.items));
      ApplyKeepsPair(s.chat, r.items);
      OneCommitSent(w, db, r, v, Exec(w, db, r).1.out);
      if BaseOf(w, db, r).Some? {
        ApplyKeeps(s.chat, db.account.initiated, db.next, r.items);
        CallsBelow(v.work.chat, db.account.initiated, db.next);
        GroundedIf(cost, Base(v.work, db.next, turn.value));
        BaseReady(w, db, r);
        ContinueSendsPaired(w, db, r, turn.value, s.mode, s.hasProject, v);
      }
    }
  }

  /** The seeded transcript of a temporary chat waits for nothing. */
  lemma {:induction false} PlainReady(transcript: seq<Body>, next: Id)
    requires Plain(transcript)
    ensures Ready(Chat(Seed(transcript, next), map[])) && Intact(Chat(Seed(transcript, next), map[]))
  {
    hide PairInv, Open, Ready;
    if transcript == [] {
      assert Seed(transcript, next) == [];
      EmptyIntact();
      assert Ready(Chat([], map[])) by { GuardDecidesReady(Chat([], map[])); }
    } else {
      var n := |transcript| - 1;
      PlainReady(transcript[..n], next);
      assert Seed(transcript, next) == Seed(transcript[..n], next) + [Step(next + n, transcript[n])];
      SpeakKeepsPair(Chat(Seed(transcript[..n], next), map[]), next + n, transcript[n]);
      OpenReady(Chat(Seed(transcript, next), map[]));
    }
  }

  lemma {:induction false} TemporarySendsPaired(cost: int, w: World, db: Database, r: Request)
    requires DbInv(cost, db) && w.cost == cost && WorldOk(w) && r.TemporaryRun? && Plain(r.transcript)
    ensures forall i :: 0 <= i < |Exec(w, db, r).1.sent| ==> Paired(Build(Exec(w, db, r).1.sent[i].steps))
  {
    hide AccountInv, ChatInv, Continue, Grounded, WorldOk, PairInv, Ready, Open, Plain, Paired;
    var steps := Seed(r.transcript, db.next);
    var turn := db.next + |steps|;
    var body := User(r.request.content, r.request.actionPrompt);
    var x := Write(Unit(Store(Chat(steps, map[]), db.account), [], turn + 1, [], true), turn, body);
    if r.request.edit.None? {
      IdsBelow(cost, db.account, db.next);
      GroundedParts(Base(x.work, turn + 1, turn));
      PlainReady(r.transcript, db.next);
      SpeakKeepsPair(Chat(steps, map[]), turn, body);
      GenerationPairs(w, turn, r.mode, false, x);
      ScanDecidesPaired(Build(x.work.chat.steps));
      ReadyScan(x.work.chat);
    }
  }

  /** A guarded request leaves every session intact. */
  lemma {:induction false} GuardedKeepsIntact(cost: int, w: World, db: Database, r: Request)
    requires DbInv(cost, db) && w.cost == cost && WorldOk(w) && SessionsIntact(db) && Guarded(w, db, r)
    ensures SessionsIntact(Exec(w, db, r).0)
    ensures forall i :: 0 <= i < |Exec(w, db, r).1.sent| ==> Paired(Build(Exec(w, db, r).1.sent[i].steps))
  {
    hide DbInv, WorldOk, Intact, Paired, Guarded, RunTurn, ToolResultTurn, Finish, Consume, Grant;
    match r
    case Run(_, _, _, _, _) => RunSendsPaired(cost, w, db, r);
    case ToolResult(id, _) => if id in db.sessions { ResultSendsPaired(cost, w, db, r); }
    case TemporaryRun(_, _, _) =>
      assert Plain(r.transcript) by { GuardedPlain(w, db, r); }
      TemporarySendsPaired(cost, w, db, r);
    case _ =>
  }

  lemma {:induction false} GuardedPlain(w: World, db: Database, r: Request)
    requires r.TemporaryRun? && Guarded(w, db, r)
    ensures Plain(r.transcript)
  {
  }

  ghost predicate GuardedRun(db: Database, events: seq<Event>) {
    forall i :: 0 <= i < |events| ==>
      WorldOk(events[i].world) && Guarded(events[i].world, Play(db, events[..i]), events[i].request)
  }

  lemma {:induction false} GuardedPrefix(cost: int, db: Database, events: seq<Event>, n: nat)
    requires SameCost(cost, events) && GuardedRun(db, events) && n <= |events|
    ensures SameCost(cost, events[..n]) && GuardedRun(db, events[..n])
  {
    hide Play, Guarded, WorldOk;
    var some := events[..n];
    forall i | 0 <= i < n
      ensures WorldOk(some[i].world) && Guarded(some[i].world, Play(db, some[..i]), some[i].request)
    {
      assert some[i] == events[i] && some[..i] == events[..i];
    }
  }

  lemma {:induction false} IntactRun(cost: int, db: Database, events: seq<Event>)
    requires Fresh(db) && SameCost(cost, events) && GuardedRun(db, events)
    ensures SessionsIntact(Play(db, events))
  {
    hide Exec, Guarded, WorldOk, DbInv, SessionsIntact, Fresh;
    if events == [] {
      assert SessionsIntact(db) by { FreshIntact(db); }
    } else {
      var n := |events| - 1;
      GuardedPrefix(cost, db, events, n);
      IntactRun(cost, db, events[..n]);
      FreshHolds(cost, db);
      PlayKeeps(cost, db, events[..n]);
      GuardedKeepsIntact(cost, events[n].world, Play(db, events[..n]), events[n].request);
    }
  }

  lemma {:induction false} FreshIntact(db: Database)
    requires Fresh(db)
    ensures SessionsIntact(db)
  {
  }

  /** Paired history at every model call of every guarded run. */
  lemma {:induction false} EveryCallPaired(cost: int, db: Database, events: seq<Event>, i: nat, k: nat)
    requires Fresh(db) && SameCost(cost, events) && GuardedRun(db, events)
    requires i < |events| && k < |TraceAt(db, events, i).sent|
    ensures Paired(Build(TraceAt(db, events, i).sent[k].steps))
  {
    hide Exec, Guarded, WorldOk, DbInv, SessionsIntact, Paired, Fresh, Play;
    GuardedPrefix(cost, db, events, i);
    IntactRun(cost, db, events[..i]);
    FreshHolds(cost, db);
    PlayKeeps(cost, db, events[..i]);
    GuardedKeepsIntact(cost, events[i].world, Play(db, events[..i]), events[i].request);
  }
}
