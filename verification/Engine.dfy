/** One chat request as a function of the tables, the oracles and the fresh ids.

`Progress` is what the request has read and written so far: the working rows, the list of committed
states, the next fresh id, and the lists it will put in its response.
*/
module Engine {
  import opened Wallet
  import opened Records
  import opened Repository
  import Policy

  datatype ToolKind = Site | Global | Quiz | Image | Client

  datatype Stop = EndTurn | ToolUseStop | MaxTokens

  /** What one `create_message` call brings back. */
  datatype Reply =
    | AuthRejected
    | Unavailable
    | Reply(stop: Stop, content: seq<Block>)

  datatype Execution = Done(result: string) | Refused(code: string)
  datatype Picture = Bytes | PolicyRefusal | GenerationFailed

  datatype Key = NoKey | StoredKey(enabled: bool, status: Policy.KeyState, providerKnown: bool)

  datatype ImageRow = ImageRow(turn: Id, call: Id)

  /** The audit rows of the final assistant steps. */
  datatype Final = Final(turn: Id, plan: Policy.Plan)

  /** Rows that belong to the user rather than to one session. `initiated` and `finals` are read off
      the append-only audit log; `images` is the image table without its expiry sweep. */
  datatype Account = Account(
    purse: Purse,
    initiated: map<Id, Id>,
    images: seq<ImageRow>,
    finals: seq<Final>,
    trialUsed: bool,
    subscription: Policy.Subscription,
    key: Key)
  {
    function PolicyState(): Policy.State {
      Policy.State(subscription, trialUsed, purse.balance,
                   key.StoredKey? && key.enabled, if key.NoKey? then Policy.Missing else key.status)
    }
  }

  datatype Store = Store(chat: Chat, account: Account)

  datatype Unit = Unit(work: Store, log: seq<Store>, next: Id, sent: seq<Chat>, temporary: bool)

  /** Everything outside the database, as arbitrary functions. */
  datatype World = World(
    kind: string -> ToolKind,                        // the tool registries
    cost: int,                                       // IMAGE_CREDITS_COST
    rounds: nat,                                     // MAX_SERVER_TOOL_ROUNDS
    model: (nat, seq<Message>) -> Reply,             // n-th model call of the request
    validate: (string, string) -> Option<string>,    // validate_tool_args
    execute: (Id, string, string) -> Execution,      // site.*, time.now and quiz.generate handlers
    picture: (nat, string) -> Picture)               // image bytes generated before any write

  datatype Turn = Turn(id: Id, mode: Policy.Mode, plan: Policy.Plan, hasProject: bool)

  datatype ServerTool = ServerTool(call: Id, tool: string, status: Status)
  datatype ClientCall = ClientCall(call: Id, tool: string, args: string)

  datatype Error =
    | AuthError | UpstreamError | ValidationError | ConflictError | InsufficientCredits | NotFound
    | MessageNotFound

  /** What the caller gets back. `Replay` is shown with the same status as `AssistantMessageOut`: it repeats
      a stored reply, which need not be the one that ended its turn. */
  datatype Outcome =
    | AssistantMessageOut(text: string, tools: seq<ServerTool>, images: seq<Id>)
    | ToolCallOut(text: string, calls: seq<ClientCall>, tools: seq<ServerTool>, images: seq<Id>)
    | MaxTokensOut(text: string, tools: seq<ServerTool>, images: seq<Id>)
    | Awaiting(pending: set<Id>)
    | Replay(text: string)
    | Accepted
    | Blocked(reason: Policy.Reason)
    | Raised(error: Error)

  datatype Progress = Progress(unit: Unit, tools: seq<ServerTool>, images: seq<Id>, clients: seq<ClientCall>)

  datatype Flow = More(p: Progress) | Halt(p: Progress, out: Outcome)

  // ---- the unit of work ----

  function Commit(u: Unit): Unit { u.(log := u.log + [u.work]) }

  /** The database goes back to the last commit; the memory of a temporary chat does not. */
  function Rollback(u: Unit): Unit
    requires u.log != []
  {
    var saved := u.log[|u.log| - 1];
    u.(work := if u.temporary then Store(u.work.chat, saved.account) else saved)
  }

  function SetChat(u: Unit, c: Chat): Unit { u.(work := u.work.(chat := c)) }
  function SetAccount(u: Unit, a: Account): Unit { u.(work := u.work.(account := a)) }

  function Write(u: Unit, turn: Id, body: Body): Unit {
    SetChat(u, AddStep(u.work.chat, turn, body))
  }

  /** `create_tool_call` under a fresh id, with its audit row. */
  function OpenCall(u: Unit, turn: Id, tool: string, args: string, provider: string): Unit {
    var id := u.next;
    u.(next := id + 1,
       work := Store(CreateCall(u.work.chat, id, turn, tool, args, provider),
                     u.work.account.(initiated := u.work.account.initiated[id := turn])))
  }

  /** `complete_tool_call` followed by the tool step that records the result. */
  function Answer(c: Chat, id: Id, result: Option<string>, error: Option<string>): Chat
    requires id in c.calls
  {
    var call := c.calls[id];
    var status := if error.Some? then Errored else Completed;
    var (d, done) := CompleteCall(c, id, status, if result.Some? then result else error);
    if done then AddStep(d, call.turn, Tool(id, call.provider, call.tool, result, error)) else c
  }

  // ---- tool_use turns ----

  function Persist(p: Progress, id: Id, x: Execution): Progress
    requires id in p.unit.work.chat.calls
  {
    var result := if x.Done? then Some(x.result) else None;
    var error := if x.Refused? then Some(x.code) else None;
    p.(unit := SetChat(p.unit, Answer(p.unit.work.chat, id, result, error)),
       tools := p.tools + [ServerTool(id, p.unit.work.chat.calls[id].tool,
                                      if x.Refused? then Errored else Completed)])
  }

  /** Debit the image, then store it; a failed generation costs nothing and becomes a tool error. */
  function ExecuteImage(w: World, t: Turn, p: Progress, id: Id, provider: string): Flow
    requires id in p.unit.work.chat.calls && p.unit.log != []
  {
    match w.picture(|p.unit.sent|, provider)
    case PolicyRefusal => More(Persist(p, id, Refused("content_policy")))
    case GenerationFailed => More(Persist(p, id, Refused("image_generation_failed")))
    case Bytes =>
      var a := p.unit.work.account;
      var (purse, v) := Consume(a.purse, Uuid(id), w.cost);
      var q := p.(unit := SetAccount(p.unit, a.(purse := purse)));
      if v.Insufficient? then Halt(q.(unit := Rollback(q.unit)), Blocked(Policy.ImageCreditsEmpty))
      else if v.Conflict? then Halt(q, Raised(ConflictError))
      else
        var r := p.(unit := SetAccount(p.unit, a.(purse := purse, images := a.images + [ImageRow(t.id, id)])),
                    images := p.images + [id]);
        More(Persist(r, id, Done("image")))
  }

  function HandleBlock(w: World, t: Turn, p: Progress, b: Block): Flow
    requires b.ToolUse? && p.unit.log != []
  {
    var kind := w.kind(b.name);
    var checked := w.validate(b.name, b.input);
    if kind.Site? && !t.hasProject then Halt(p, Raised(UpstreamError))
    else if checked.None? && !kind.Quiz? then Halt(p, Raised(ValidationError))
    else
      var args := if checked.Some? then checked.value else b.input;
      var id := p.unit.next;
      var q := p.(unit := OpenCall(p.unit, t.id, b.name, args, b.id));
      match kind
      case Image => ExecuteImage(w, t, q, id, b.id)
      case Client =>
        if p.unit.temporary then Halt(q, Raised(UpstreamError))
        else More(q.(clients := q.clients + [ClientCall(id, b.name, args)]))
      case _ => More(Persist(q, id, w.execute(id, b.name, args)))
  }

  function HandleBlocks(w: World, t: Turn, p: Progress, uses: seq<Block>): Flow
    requires p.unit.log != [] && forall b :: b in uses ==> b.ToolUse?
    decreases |uses|
  {
    if uses == [] then More(p)
    else
      match HandleBlock(w, t, p, uses[0])
      case Halt(q, out) => Halt(q, out)
      case More(q) =>
        assert q.unit.log == p.unit.log;
        HandleBlocks(w, t, q, uses[1..])
  }

  /** `_handle_tool_use`: image arguments are checked before anything is written. */
  function HandleToolUse(w: World, t: Turn, p: Progress, content: seq<Block>): Flow
    requires p.unit.log != []
  {
    var uses := ToolUses(content);
    if exists b :: b in uses && w.kind(b.name).Image? && w.validate(b.name, b.input).None?
    then Halt(p, Raised(ValidationError))
    else HandleBlocks(w, t, p.(unit := Write(p.unit, t.id, Assistant(content, false)), clients := []), uses)
  }

  // ---- final replies ----

  function HandleMaxTokens(t: Turn, p: Progress, content: seq<Block>): Flow {
    var u := Commit(Write(p.unit, t.id, Assistant(content, true)));
    Halt(p.(unit := u), MaxTokensOut(TextOf(content), p.tools, p.images))
  }

  function Finalize(t: Turn, p: Progress, content: seq<Block>): Flow
    requires p.unit.log != []
  {
    var u := Write(p.unit, t.id, Assistant(content, false));
    var a := u.work.account.(finals := u.work.account.finals + [Final(t.id, t.plan)]);
    var out := AssistantMessageOut(TextOf(content), p.tools, p.images);
    match t.plan
    case Free => Halt(p.(unit := Commit(SetAccount(u, a))), out)
    case SpendTrial => Halt(p.(unit := Commit(SetAccount(u, a.(trialUsed := true)))), out)
    case DebitCredit =>
      var (purse, v) := Consume(a.purse, Uuid(t.id), 1);
      var q := p.(unit := SetAccount(u, a.(purse := purse)));
      if v.Insufficient? then Halt(q.(unit := Rollback(q.unit)), Blocked(Policy.CreditsEmpty))
      else if v.Conflict? then Halt(q, Raised(ConflictError))
      else Halt(q.(unit := Commit(q.unit)), out)
  }

  // ---- the generation loop ----

  /** The provider rejected the key: the user's own one is marked, ours is an error. */
  function HandleAuthRejected(t: Turn, p: Progress): Flow {
    if t.mode.Byok? then
      var a := p.unit.work.account;
      var key := if a.key.NoKey? then NoKey else a.key.(status := Policy.KeyExpired);
      Halt(p.(unit := Commit(SetAccount(p.unit, a.(key := key)))), Blocked(Policy.ByokInvalid))
    else Halt(p, Raised(AuthError))
  }

  /** One iteration: commit, call the model, act on its reply. */
  function Round(w: World, t: Turn, p: Progress): Flow {
    var u := Commit(p.unit);
    var q := p.(unit := u.(sent := u.sent + [u.work.chat]));
    match w.model(|u.sent|, Build(u.work.chat.steps))
    case Unavailable => Halt(q, Raised(UpstreamError))
    case AuthRejected => HandleAuthRejected(t, q)
    case Reply(stop, content) =>
      if stop.MaxTokens? then HandleMaxTokens(t, q, content)
      else if stop.ToolUseStop? && ToolUses(content) != [] then
        match HandleToolUse(w, t, q, content)
        case Halt(r, out) => Halt(r, out)
        case More(r) =>
          var s := r.(unit := Commit(r.unit));
          if r.clients == [] then More(s)
          else Halt(s, ToolCallOut(TextOf(content), r.clients, r.tools, r.images))
      else Finalize(t, q, content)
  }

  /** At most `n` rounds; running out of them is an error without billing. */
  function Loop(w: World, t: Turn, p: Progress, n: nat): (Progress, Outcome)
    decreases n
  {
    if n == 0 then (p.(unit := Commit(p.unit)), Raised(UpstreamError))
    else
      match Round(w, t, p)
      case Halt(q, out) => (q, out)
      case More(q) => Loop(w, t, q, n - 1)
  }

  function Generate(w: World, t: Turn, u: Unit): (Progress, Outcome) {
    var p := Progress(u, [], [], []);
    if t.mode.Byok? && u.work.account.key.StoredKey? && !u.work.account.key.providerKnown
    then (p.(unit := Commit(u)), Blocked(Policy.ByokInvalid))
    else Loop(w, t, p, w.rounds + 1)
  }

  /** Policy check, then generation. */
  function Continue(w: World, turn: Id, mode: Policy.Mode, hasProject: bool, u: Unit): (Progress, Outcome) {
    var s := u.work.account.PolicyState();
    match Policy.Evaluate(s, mode)
    case Block(reason) => (Progress(u, [], [], []), Blocked(reason))
    case Allow => Generate(w, Turn(turn, mode, Policy.BillingPlan(mode, s), hasProject), u)
  }

  // ---- requests ----

  datatype Session = Session(chat: Chat, mode: Policy.Mode, hasProject: bool)

  datatype RunRequest = RunRequest(content: seq<Block>, actionPrompt: Option<string>, edit: Option<Id>)

  /** `run` on a resumed (`isNew == false`) or just created session. */
  function RunTurn(w: World, s: Session, isNew: bool, r: RunRequest, u: Unit): (Progress, Outcome) {
    var turn := u.next;
    var v := u.(next := turn + 1);
    var cut := if r.edit.None? then Some(v.work.chat)
               else if isNew then None
               else Truncate(v.work.chat, r.edit.value);
    match cut
    case None => (Progress(v, [], [], []), Raised(MessageNotFound))
    case Some(chat) =>
      Continue(w, turn, s.mode, s.hasProject,
               Write(SetChat(v, chat), turn, User(r.content, r.actionPrompt)))
  }

  datatype ResultItem = ResultItem(call: Id, result: Option<string>, error: Option<string>)

  /** Apply the items in order; an item whose call already has a result changes nothing. */
  function ApplyResults(c: Chat, items: seq<ResultItem>): Chat
    decreases |items|
  {
    if items == [] then c
    else
      var d := if items[0].call in c.calls then Answer(c, items[0].call, items[0].result, items[0].error) else c;
      ApplyResults(d, items[1..])
  }

  /** Client-side calls of a turn that still wait for their result. */
  function PendingClient(w: World, c: Chat, turn: Id): set<Id> {
    set id | id in c.calls && c.calls[id].turn == turn && c.calls[id].status.Pending?
             && w.kind(c.calls[id].tool).Client?
  }

  /** The one turn all items refer to, or the error of the first item that does not fit. */
  function Resolve(c: Chat, items: seq<ResultItem>, turn: Option<Id>): (r: (Option<Id>, Error))
    ensures r.0.Some? <==>
            && (items == [] ==> turn.Some?)
            && (forall item :: item in items ==> item.call in c.calls)
            && (forall item :: item in items && item.call in c.calls ==>
                  c.calls[item.call].turn == if turn.Some? then turn.value else c.calls[items[0].call].turn)
    ensures r.0.Some? ==> r.0.value == if turn.Some? then turn.value else c.calls[items[0].call].turn
    decreases |items|
  {
    if items == [] then (turn, ValidationError)
    else if items[0].call !in c.calls then (None, NotFound)
    else
      var own := c.calls[items[0].call].turn;
      if turn.Some? && turn.value != own then (None, ValidationError)
      else Resolve(c, items[1..], Some(own))
  }

  /** `tool_result`: apply the batch; go on only when no client call of the turn is pending and no
      later assistant step of the turn is stored. */
  function ToolResultTurn(w: World, s: Session, items: seq<ResultItem>, u: Unit): (Progress, Outcome) {
    var c := u.work.chat;
    match Resolve(c, items, None)
    case (None, error) => (Progress(u, [], [], []), Raised(error))
    case (Some(turn), _) =>
      var v := SetChat(u, ApplyResults(c, items));
      var pending := PendingClient(w, v.work.chat, turn);
      if pending != {} then (Progress(Commit(v), [], [], []), Awaiting(pending))
      else
        match NextStepAfter(v.work.chat, turn, items[0].call)
        case Some(step) => (Progress(v, [], [], []), Replay(TextOf(step.body.content)))
        case None => Continue(w, turn, s.mode, s.hasProject, v)
  }

  /** `session_scope`: commit after a normal return, roll back after an exception. */
  function Finish(r: (Progress, Outcome)): (Progress, Outcome) {
    if !r.1.Raised? then (r.0.(unit := Commit(r.0.unit)), r.1)
    else if r.0.unit.log == [] then r
    else (r.0.(unit := Rollback(r.0.unit)), r.1)
  }

  // ---- the database of one user ----

  datatype Database = Database(sessions: map<Id, Session>, account: Account, next: Id)

  datatype Request =
    | Run(resume: Option<Id>, expired: bool, mode: Policy.Mode, hasProject: bool, request: RunRequest)
    | TemporaryRun(transcript: seq<Body>, mode: Policy.Mode, request: RunRequest)
    | ToolResult(session: Id, items: seq<ResultItem>)
    | WalletConsume(name: string, amount: int)
    | WalletGrant(name: string, amount: int)
    | SetSubscription(subscription: Policy.Subscription)
    | SetKey(key: Key)

  /** What a request answered, the states it committed and the histories it sent to the model. */
  datatype Trace = Trace(out: Outcome, log: seq<Store>, sent: seq<Chat>)

  /** The session a run works on: the one named, if it exists and has not expired, or a new one. */
  function Target(db: Database, r: Request): (Id, Session, bool)
    requires r.Run?
  {
    if r.resume.Some? && r.resume.value in db.sessions && !r.expired
    then (r.resume.value, db.sessions[r.resume.value], false)
    else (db.next, Session(Chat([], map[]), r.mode, r.hasProject), true)
  }

  /** The seed of a temporary chat: every transcript entry is a step of its own turn. */
  function Seed(transcript: seq<Body>, next: Id): seq<Step> {
    seq(|transcript|, i requires 0 <= i < |transcript| => Step(next + i, transcript[i]))
  }

  function Install(db: Database, id: Id, s: Session, u: Unit): Database {
    if u.log == [] then db.(next := u.next)
    else
      var saved := u.log[|u.log| - 1];
      Database(db.sessions[id := s.(chat := saved.chat)], saved.account, u.next)
  }

  function Exec(w: World, db: Database, r: Request): (Database, Trace) {
    match r
    case Run(_, _, _, _, request) =>
      var (id, s, isNew) := Target(db, r);
      var u := Unit(Store(s.chat, db.account), [], if isNew then db.next + 1 else db.next, [], false);
      var (p, out) := Finish(RunTurn(w, s, isNew, request, u));
      (Install(db, id, s, p.unit), Trace(out, p.unit.log, p.unit.sent))
    case TemporaryRun(transcript, mode, request) =>
      var steps := Seed(transcript, db.next);
      var u := Unit(Store(Chat(steps, map[]), db.account), [], db.next + |steps|, [], true);
      var (p, out) := Finish(RunTurn(w, Session(Chat(steps, map[]), mode, false), true, request, u));
      (db.(account := if p.unit.log == [] then db.account else p.unit.log[|p.unit.log| - 1].account,
           next := p.unit.next),
       Trace(out, p.unit.log, p.unit.sent))
    case ToolResult(id, items) =>
      if id !in db.sessions then (db, Trace(Raised(NotFound), [], []))
      else
        var s := db.sessions[id];
        var u := Unit(Store(s.chat, db.account), [], db.next, [], false);
        var (p, out) := Finish(ToolResultTurn(w, s, items, u));
        (Install(db, id, s, p.unit), Trace(out, p.unit.log, p.unit.sent))
    case WalletConsume(name, amount) =>
      var (purse, v) := Consume(db.account.purse, Named(name), amount);
      if v.Ok() then (db.(account := db.account.(purse := purse)), Trace(Accepted, [], []))
      else (db, Trace(Raised(if v.Insufficient? then InsufficientCredits else ConflictError), [], []))
    case WalletGrant(name, amount) =>
      var (purse, v) := Grant(db.account.purse, Named(name), amount);
      if v.Ok() then (db.(account := db.account.(purse := purse)), Trace(Accepted, [], []))
      else (db, Trace(Raised(if v.Insufficient? then InsufficientCredits else ConflictError), [], []))
    case SetSubscription(subscription) =>
      (db.(account := db.account.(subscription := subscription)), Trace(Accepted, [], []))
    case SetKey(key) => (db.(account := db.account.(key := key)), Trace(Accepted, [], []))
  }
}
