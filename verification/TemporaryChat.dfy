/** A temporary chat behaves like a stored session whose history is its transcript. */
module TemporaryChat {
  import opened Wallet
  import opened Records
  import opened Repository
  import opened Engine
  import opened History
  import opened Growth
  import opened Responses
  import Orchestrator
  import Policy

  /** No reply names a client-side tool: a temporary chat does not offer any. */
  ghost predicate ServerToolsOnly(w: World) {
    forall n, ms, b :: w.model(n, ms).Reply? && b in w.model(n, ms).content && b.ToolUse? ==> !w.kind(b.name).Client?
  }

  /** Histories that send the same message lists. */
  ghost predicate SameSent(a: seq<Chat>, b: seq<Chat>) {
    |a| == |b| && forall i :: 0 <= i < |a| ==> Build(a[i].steps) == Build(b[i].steps)
  }

  ghost predicate SameAccounts(a: seq<Store>, b: seq<Store>) {
    |a| == |b| && forall i :: 0 <= i < |a| ==> a[i].account == b[i].account
  }

  /** A stored generation and its temporary twin: equal in all but the rows behind the messages. */
  ghost predicate Twin(p: Progress, q: Progress) {
    && !p.unit.temporary && q.unit.temporary
    && p.unit.next == q.unit.next
    && p.unit.work.account == q.unit.work.account
    && Build(p.unit.work.chat.steps) == Build(q.unit.work.chat.steps)
    && SameSent(p.unit.sent, q.unit.sent)
    && SameAccounts(p.unit.log, q.unit.log)
    && p.tools == q.tools && p.images == q.images && p.clients == q.clients
  }

  /** After the end only what is visible outside counts. */
  ghost predicate Alike(p: Progress, q: Progress) {
    && p.unit.next == q.unit.next
    && p.unit.work.account == q.unit.work.account
    && SameSent(p.unit.sent, q.unit.sent)
    && SameAccounts(p.unit.log, q.unit.log)
  }

  ghost predicate TwinFlow(f: Flow, g: Flow) {
    match (f, g)
    case (More(p), More(q)) => Twin(p, q)
    case (Halt(p, x), Halt(q, y)) => x == y && Alike(p, q)
    case _ => false
  }

  /** The call being executed has the same row on both sides. */
  ghost predicate SameCall(p: Progress, q: Progress, id: Id) {
    && id in p.unit.work.chat.calls && id in q.unit.work.chat.calls
    && p.unit.work.chat.calls[id] == q.unit.work.chat.calls[id]
  }

  lemma {:induction false} BuildSnoc(a: seq<Step>, s: Step)
    ensures Build(a + [s]) == Build(a) + [ToMessage(s)]
  {
  }

  lemma {:induction false} WriteTwin(p: Progress, q: Progress, turn: Id, body: Body)
    requires Twin(p, q)
    ensures Twin(p.(unit := Write(p.unit, turn, body)), q.(unit := Write(q.unit, turn, body)))
  {
    hide SameSent, SameAccounts, Build;
    BuildSnoc(p.unit.work.chat.steps, Step(turn, body));
    BuildSnoc(q.unit.work.chat.steps, Step(turn, body));
  }

  lemma {:induction false} PersistTwin(p: Progress, q: Progress, id: Id, x: Execution)
    requires Twin(p, q) && SameCall(p, q, id)
    ensures Twin(Persist(p, id, x), Persist(q, id, x))
  {
    hide SameSent, SameAccounts, Build;
    var call := p.unit.work.chat.calls[id];
    var s := Step(call.turn, Tool(id, call.provider, call.tool, if x.Done? then Some(x.result) else None,
                                  if x.Refused? then Some(x.code) else None));
    BuildSnoc(p.unit.work.chat.steps, s);
    BuildSnoc(q.unit.work.chat.steps, s);
  }

  lemma {:induction false} ImageTwin(w: World, t: Turn, p: Progress, q: Progress, id: Id, provider: string)
    requires Twin(p, q) && SameCall(p, q, id) && p.unit.log != [] && q.unit.log != []
    ensures TwinFlow(ExecuteImage(w, t, p, id, provider), ExecuteImage(w, t, q, id, provider))
  {
    hide SameSent, Build, Persist, Consume;
    assert |p.unit.sent| == |q.unit.sent| by { SentLength(p, q); }
    match w.picture(|p.unit.sent|, provider)
    case PolicyRefusal => PersistTwin(p, q, id, Refused("content_policy"));
    case GenerationFailed => PersistTwin(p, q, id, Refused("image_generation_failed"));
    case Bytes =>
      var a := p.unit.work.account;
      var purse := Consume(a.purse, Uuid(id), w.cost).0;
      var b := a.(purse := purse, images := a.images + [ImageRow(t.id, id)]);
      PersistTwin(p.(unit := SetAccount(p.unit, b), images := p.images + [id]),
                  q.(unit := SetAccount(q.unit, b), images := q.images + [id]), id, Done("image"));
  }

  lemma {:induction false} SentLength(p: Progress, q: Progress)
    requires Twin(p, q)
    ensures |p.unit.sent| == |q.unit.sent|
  {
  }

  lemma {:induction false} BlockTwin(w: World, t: Turn, p: Progress, q: Progress, block: Block)
    requires Twin(p, q) && p.unit.log != [] && q.unit.log != []
    requires block.ToolUse? && !w.kind(block.name).Client?
    ensures TwinFlow(HandleBlock(w, t, p, block), HandleBlock(w, t, q, block))
  {
    hide SameSent, SameAccounts, Build, Persist, ExecuteImage;
    var checked := w.validate(block.name, block.input);
    var args := if checked.Some? then checked.value else block.input;
    var id := p.unit.next;
    var x := p.(unit := OpenCall(p.unit, t.id, block.name, args, block.id));
    var y := q.(unit := OpenCall(q.unit, t.id, block.name, args, block.id));
    assert Twin(x, y) && SameCall(x, y, id);
    match w.kind(block.name)
    case Image => ImageTwin(w, t, x, y, id, block.id);
    case Client =>
    case _ => PersistTwin(x, y, id, w.execute(id, block.name, args));
  }

  lemma {:induction false} BlocksTwin(w: World, t: Turn, p: Progress, q: Progress, uses: seq<Block>)
    requires Twin(p, q) && p.unit.log != [] && q.unit.log != []
    requires forall b :: b in uses ==> b.ToolUse? && !w.kind(b.name).Client?
    ensures TwinFlow(HandleBlocks(w, t, p, uses), HandleBlocks(w, t, q, uses))
    decreases |uses|
  {
    hide Twin, Alike, HandleBlock;
    if uses != [] {
      BlockTwin(w, t, p, q, uses[0]);
      BlockFrame(w, t, p, uses[0]);
      BlockFrame(w, t, q, uses[0]);
      match (HandleBlock(w, t, p, uses[0]), HandleBlock(w, t, q, uses[0])) {
        case (More(x), More(y)) => BlocksTwin(w, t, x, y, uses[1..]);
        case _ =>
      }
    }
  }

  lemma {:induction false} ToolUseTwin(w: World, t: Turn, p: Progress, q: Progress, content: seq<Block>)
    requires Twin(p, q) && p.unit.log != [] && q.unit.log != []
    requires forall b :: b in content && b.ToolUse? ==> !w.kind(b.name).Client?
    ensures TwinFlow(HandleToolUse(w, t, p, content), HandleToolUse(w, t, q, content))
  {
    hide SameSent, SameAccounts, Build, HandleBlocks;
    WriteTwin(p, q, t.id, Assistant(content, false));
    BlocksTwin(w, t, p.(unit := Write(p.unit, t.id, Assistant(content, false)), clients := []),
               q.(unit := Write(q.unit, t.id, Assistant(content, false)), clients := []), ToolUses(content));
  }

  lemma {:induction false} CommitTwin(p: Progress, q: Progress)
    requires Twin(p, q)
    ensures Twin(p.(unit := Commit(p.unit)), q.(unit := Commit(q.unit)))
  {
    hide SameSent, Build;
  }

  lemma {:induction false} FinalizeTwin(t: Turn, p: Progress, q: Progress, content: seq<Block>)
    requires Twin(p, q) && p.unit.log != [] && q.unit.log != []
    ensures TwinFlow(Finalize(t, p, content), Finalize(t, q, content))
  {
    hide SameSent, Build, Consume;
  }

  lemma {:induction false} RoundTwin(w: World, t: Turn, p: Progress, q: Progress)
    requires Twin(p, q) && ServerToolsOnly(w)
    ensures TwinFlow(Round(w, t, p), Round(w, t, q))
  {
    hide SameAccounts, Build, HandleToolUse, Finalize, ServerToolsOnly;
    CommitTwin(p, q);
    var u, v := Commit(p.unit), Commit(q.unit);
    var x := p.(unit := u.(sent := u.sent + [u.work.chat]));
    var y := q.(unit := v.(sent := v.sent + [v.work.chat]));
    assert Twin(x, y);
    hide SameSent;
    match w.model(|u.sent|, Build(u.work.chat.steps))
    case Unavailable =>
    case AuthRejected =>
      if t.mode.Byok? {
        var a := u.work.account;
        var b := a.(key := if a.key.NoKey? then NoKey else a.key.(status := Policy.KeyExpired));
        CommitTwin(x.(unit := SetAccount(x.unit, b)), y.(unit := SetAccount(y.unit, b)));
      }
    case Reply(stop, content) =>
      if stop.MaxTokens? {
        WriteTwin(x, y, t.id, Assistant(content, true));
        CommitTwin(x.(unit := Write(x.unit, t.id, Assistant(content, true))),
                   y.(unit := Write(y.unit, t.id, Assistant(content, true))));
      } else if stop.ToolUseStop? && ToolUses(content) != [] {
        NoClientTool(w, |u.sent|, Build(u.work.chat.steps));
        ToolUseTwin(w, t, x, y, content);
        match (HandleToolUse(w, t, x, content), HandleToolUse(w, t, y, content)) {
          case (More(a), More(b)) => CommitTwin(a, b);
          case _ =>
        }
      } else {
        FinalizeTwin(t, x, y, content);
      }
  }

  lemma {:induction false} NoClientTool(w: World, n: nat, ms: seq<Message>)
    requires ServerToolsOnly(w) && w.model(n, ms).Reply?
    ensures forall b :: b in w.model(n, ms).content && b.ToolUse? ==> !w.kind(b.name).Client?
  {
  }

  lemma {:induction false} LoopTwin(w: World, t: Turn, p: Progress, q: Progress, n: nat)
    requires Twin(p, q) && ServerToolsOnly(w)
    ensures Loop(w, t, p, n).1 == Loop(w, t, q, n).1 && Alike(Loop(w, t, p, n).0, Loop(w, t, q, n).0)
    decreases n
  {
    hide Round, SameSent, Build, ServerToolsOnly;
    if n > 0 {
      RoundTwin(w, t, p, q);
      match (Round(w, t, p), Round(w, t, q)) {
        case (More(x), More(y)) => LoopTwin(w, t, x, y, n - 1);
        case _ =>
      }
    }
  }

  lemma {:induction false} FinishAlike(p: Progress, q: Progress, out: Outcome)
    requires Alike(p, q)
    ensures Alike(Finish((p, out)).0, Finish((q, out)).0)
  {
    hide SameSent;
  }

  lemma {:induction false} ContinueTwin(w: World, turn: Id, mode: Policy.Mode, hasProject: bool, u: Unit, v: Unit)
    requires Twin(Progress(u, [], [], []), Progress(v, [], [], [])) && ServerToolsOnly(w)
    ensures var (p, x) := Finish(Continue(w, turn, mode, hasProject, u));
            var (q, y) := Finish(Continue(w, turn, mode, hasProject, v));
            x == y && Alike(p, q)
  {
    hide Loop, SameSent, Build, ServerToolsOnly, Finish;
    var s := u.work.account.PolicyState();
    var t := Turn(turn, mode, Policy.BillingPlan(mode, s), hasProject);
    LoopTwin(w, t, Progress(u, [], [], []), Progress(v, [], [], []), w.rounds + 1);
    CommitTwin(Progress(u, [], [], []), Progress(v, [], [], []));
    FinishSame(Continue(w, turn, mode, hasProject, u));
    FinishSame(Continue(w, turn, mode, hasProject, v));
    FinishAlike(Continue(w, turn, mode, hasProject, u).0, Continue(w, turn, mode, hasProject, v).0,
                Continue(w, turn, mode, hasProject, u).1);
  }

  lemma {:induction false} NothingSent()
    ensures SameSent([], [])
  {
  }

  /** The unit of work of either request when its generation starts. */
  function Started(chat: Chat, account: Account, turn: Id, q: RunRequest, temporary: bool): Unit {
    Write(Unit(Store(chat, account), [], turn + 1, [], temporary), turn, User(q.content, q.actionPrompt))
  }

  lemma {:induction false} TemporarySide(w: World, db: Database, r: Request)
    requires r.TemporaryRun? && r.request.edit.None?
    ensures var chat := Chat(Seed(r.transcript, db.next), map[]);
            var turn := db.next + |r.transcript|;
            var (p, out) := Finish(Continue(w, turn, r.mode, false, Started(chat, db.account, turn, r.request, true)));
            && Exec(w, db, r).1 == Trace(out, p.unit.log, p.unit.sent)
            && Exec(w, db, r).0.sessions == db.sessions
            && Exec(w, db, r).0.account == if p.unit.log == [] then db.account else p.unit.log[|p.unit.log| - 1].account
  {
    hide Continue, Finish;
  }

  /** Temporary chat refines the stored chat: given a session whose history sends the same messages as
      the transcript, the same account and the same oracles, both requests send the same message
      lists, end with the same outcome and commit the same accounts; the temporary one changes no
      chat table. */
  lemma {:induction false} TemporaryRefinesStored(w: World, db: Database, tb: Database, id: Id, r: Request, tr: Request)
    requires ServerToolsOnly(w) && tr.TemporaryRun? && tr.request.edit.None?
    requires id in db.sessions && r == Run(Some(id), false, tr.mode, false, tr.request)
    requires db.sessions[id].mode == tr.mode && !db.sessions[id].hasProject
    requires db.account == tb.account && db.next == tb.next + |tr.transcript|
    requires Build(db.sessions[id].chat.steps) == Build(Seed(tr.transcript, tb.next))
    ensures var (after, trace) := Exec(w, db, r);
            var (later, shadow) := Exec(w, tb, tr);
            && trace.out == shadow.out
            && SameSent(trace.sent, shadow.sent)
            && SameAccounts(trace.log, shadow.log)
            && after.account == later.account
            && later.sessions == tb.sessions
  {
    hide Continue, Finish, ServerToolsOnly, Build, SameSent, Seed, Exec;
    var s := db.sessions[id];
    var turn := db.next;
    var body := User(tr.request.content, tr.request.actionPrompt);
    var seeded := Chat(Seed(tr.transcript, tb.next), map[]);
    var x := Unit(Store(s.chat, db.account), [], turn + 1, [], false);
    var y := Unit(Store(seeded, tb.account), [], turn + 1, [], true);
    NothingSent();
    WriteTwin(Progress(x, [], [], []), Progress(y, [], [], []), turn, body);
    ContinueTwin(w, turn, s.mode, false, Write(x, turn, body), Write(y, turn, body));
    GenerationIs(w, db, r);
    TemporarySide(w, tb, tr);
  }

  /** The same of the objects: one request on the stored tables, one on the repository in memory. */
  method ServeTwins(w: World, db: Database, tb: Database, id: Id, r: Request, tr: Request)
    returns (after: Database, later: Database, trace: Trace, shadow: Trace)
    requires ServerToolsOnly(w) && tr.TemporaryRun? && tr.request.edit.None?
    requires id in db.sessions && r == Run(Some(id), false, tr.mode, false, tr.request)
    requires db.sessions[id].mode == tr.mode && !db.sessions[id].hasProject
    requires db.account == tb.account && db.next == tb.next + |tr.transcript|
    requires Build(db.sessions[id].chat.steps) == Build(Seed(tr.transcript, tb.next))
    requires db.next !in db.sessions && tb.next !in tb.sessions
    ensures trace.out == shadow.out && SameSent(trace.sent, shadow.sent) && SameAccounts(trace.log, shadow.log)
    ensures after.account == later.account && later.sessions == tb.sessions
  {
    hide Exec, SameSent, SameAccounts, ServerToolsOnly;
    after, trace := Orchestrator.ServeChat(w, db, r);
    later, shadow := Orchestrator.ServeChat(w, tb, tr);
    TemporaryRefinesStored(w, db, tb, id, r, tr);
  }
}
