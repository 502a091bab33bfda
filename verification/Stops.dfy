/** Why a request ends as it does: which outcome each reply of the model, each state of the account and each
misfit of the input leads to. */
module Stops {
  import opened Wallet
  import opened Records
  import opened Repository
  import opened Engine
  import opened Growth
  import opened Runs
  import opened Replies
  import opened Responses
  import opened Billing
  import opened ToolResults
  import opened Replays
  import opened ToolOutcomes
  import Policy

  // ---- replies ----

  /** What the `i`-th history sent was answered with. */
  function Answered(w: World, sent: seq<Chat>, i: int): Reply
    requires 0 <= i < |sent|
  {
    w.model(i, Build(sent[i].steps))
  }

  /** A reply that ends the turn: not cut off, and not asking for a tool. */
  predicate Concludes(r: Reply) { r.Reply? && !r.stop.MaxTokens? && (r.stop.EndTurn? || ToolUses(r.content) == []) }

  predicate UsesTools(r: Reply) { r.Reply? && r.stop.ToolUseStop? && ToolUses(r.content) != [] }

  /** A block that cannot be handled at all: a site tool without a project, a client-side tool in a
      temporary chat. */
  predicate Misplaced(w: World, hasProject: bool, temporary: bool, b: Block) {
    b.ToolUse? && ((w.kind(b.name).Site? && !hasProject) || (w.kind(b.name).Client? && temporary))
  }

  /** A block whose arguments fail validation; a quiz only gets an error result for that. */
  predicate Malformed(w: World, b: Block) {
    b.ToolUse? && w.validate(b.name, b.input).None? && !w.kind(b.name).Quiz?
  }

  /** An image block whose bytes were made after the `n`-th model call. */
  predicate Made(w: World, n: nat, b: Block) { b.ToolUse? && w.kind(b.name).Image? && w.picture(n, b.id).Bytes? }

  function MadeCount(w: World, n: nat, uses: seq<Block>): nat {
    if uses == [] then 0
    else MadeCount(w, n, uses[..|uses| - 1]) + if Made(w, n, uses[|uses| - 1]) then 1 else 0
  }

  predicate NoClient(w: World, r: Reply)
    requires r.Reply?
  {
    forall b :: b in ToolUses(r.content) ==> !w.kind(b.name).Client?
  }

  // ---- blocks ----

  lemma {:induction false} MadeSnoc(w: World, n: nat, uses: seq<Block>, b: Block)
    ensures MadeCount(w, n, uses + [b]) == MadeCount(w, n, uses) + if Made(w, n, b) then 1 else 0
  {
    assert (uses + [b])[..|uses|] == uses;
  }

  lemma {:induction false} MadeGrows(w: World, n: nat, uses: seq<Block>, more: seq<Block>)
    ensures MadeCount(w, n, uses + more) >= MadeCount(w, n, uses)
    decreases |more|
  {
    if more == [] {
      assert uses + more == uses;
    } else {
      var k := |more| - 1;
      assert (uses + more)[..|uses + more| - 1] == uses + more[..k];
      MadeGrows(w, n, uses, more[..k]);
    }
  }

  /** What one block leads to, in terms of the block. */
  ghost predicate BlockStops(w: World, t: Turn, p: Progress, b: Block, f: Flow)
    requires b.ToolUse?
  {
    var n := |p.unit.sent|;
    match f
    case More(q) =>
      && (w.kind(b.name).Client? <==> q.clients != p.clients)
      && |p.clients| <= |q.clients|
      && q.unit.work.account.purse.balance == p.unit.work.account.purse.balance - if Made(w, n, b) then w.cost else 0
    case Halt(q, out) =>
      || (out == Raised(UpstreamError) && Misplaced(w, t.hasProject, p.unit.temporary, b))
      || (out == Raised(ValidationError) && Malformed(w, b))
      || (out == Raised(ConflictError) && Made(w, n, b))
      || (out == Blocked(Policy.ImageCreditsEmpty) && Made(w, n, b) && p.unit.work.account.purse.balance < w.cost
          && w.cost > 0 && p.unit.log != [] && q.unit.work.account == p.unit.log[|p.unit.log| - 1].account)
  }

  lemma {:induction false} ImageStops(w: World, t: Turn, p: Progress, id: Id, provider: string)
    requires p.unit.log != [] && id in p.unit.work.chat.calls && Uuid(id) !in Keys(p.unit.work.account.purse.ledger)
    ensures var made := w.picture(|p.unit.sent|, provider).Bytes?;
            match ExecuteImage(w, t, p, id, provider)
            case More(q) =>
              && q.clients == p.clients
              && q.unit.work.account.purse.balance == p.unit.work.account.purse.balance - if made then w.cost else 0
            case Halt(q, out) =>
              && made
              && (out == Raised(ConflictError)
                  || (out == Blocked(Policy.ImageCreditsEmpty) && p.unit.work.account.purse.balance < w.cost
                      && w.cost > 0 && q.unit.work.account == p.unit.log[|p.unit.log| - 1].account))
  {
    hide Answer, Find, Keys;
  }

  lemma {:induction false} BlockStopsWell(w: World, t: Turn, p: Progress, b: Block)
    requires b.ToolUse? && p.unit.log != [] && Uuid(p.unit.next) !in Keys(p.unit.work.account.purse.ledger)
    ensures BlockStops(w, t, p, b, HandleBlock(w, t, p, b))
  {
    hide Persist, ExecuteImage, Keys;
    var checked := w.validate(b.name, b.input);
    var args := if checked.Some? then checked.value else b.input;
    var q := p.(unit := OpenCall(p.unit, t.id, b.name, args, b.id));
    match w.kind(b.name)
    case Image => ImageStops(w, t, q, p.unit.next, b.id);
    case Client => assert |p.clients + [ClientCall(p.unit.next, b.name, args)]| == |p.clients| + 1;
    case _ => PersistFrame(q, p.unit.next, w.execute(p.unit.next, b.name, args));
              PersistKeeps(q, p.unit.next, w.execute(p.unit.next, b.name, args));
  }

  lemma {:induction false} PersistKeeps(p: Progress, id: Id, x: Execution)
    requires id in p.unit.work.chat.calls
    ensures Persist(p, id, x).unit.work.account == p.unit.work.account && Persist(p, id, x).clients == p.clients
  {
  }

  /** Generated keys in the ledger are older than the next fresh id. */
  ghost predicate KeysFresh(u: Unit) {
    forall k: nat :: Uuid(k) in Keys(u.work.account.purse.ledger) ==> k < u.next
  }

  lemma {:induction false} BlockKeysFresh(w: World, t: Turn, p: Progress, b: Block)
    requires b.ToolUse? && p.unit.log != [] && KeysFresh(p.unit)
    ensures HandleBlock(w, t, p, b).More? ==> KeysFresh(HandleBlock(w, t, p, b).p.unit)
  {
    hide Answer, Find;
    KeysConcat(p.unit.work.account.purse.ledger, [Row(Uuid(p.unit.next), Debit, w.cost)]);
    assert [Row(Uuid(p.unit.next), Debit, w.cost)][..0] == [];
  }

  lemma {:induction false} CostGrows(cost: int, k: nat, n: nat)
    requires cost > 0 && k <= n
    ensures cost * k <= cost * n
  {
  }

  /** What the blocks of a reply lead to: `saved` is the balance at the last commit, `done` was handled. */
  ghost predicate BlocksStop(w: World, t: Turn, p: Progress, done: seq<Block>, uses: seq<Block>, saved: int, f: Flow)
    requires forall b :: b in uses ==> b.ToolUse?
  {
    var n := |p.unit.sent|;
    match f
    case More(q) => q.clients != [] <==> p.clients != [] || exists b :: b in uses && w.kind(b.name).Client?
    case Halt(q, out) =>
      || (out == Raised(UpstreamError) && exists b :: b in uses && Misplaced(w, t.hasProject, p.unit.temporary, b))
      || (out == Raised(ValidationError) && exists b :: b in uses && Malformed(w, b))
      || (out == Raised(ConflictError) && exists b :: b in uses && Made(w, n, b))
      || (out == Blocked(Policy.ImageCreditsEmpty) && saved < w.cost * MadeCount(w, n, done + uses)
          && q.unit.work.account.purse.balance == saved)
  }

  lemma {:induction false} BlocksStopWell(w: World, t: Turn, p: Progress, done: seq<Block>, uses: seq<Block>,
                                          saved: int)
    requires p.unit.log != [] && p.unit.log[|p.unit.log| - 1].account.purse.balance == saved && KeysFresh(p.unit)
    requires forall b :: b in uses ==> b.ToolUse?
    requires p.unit.work.account.purse.balance == saved - w.cost * MadeCount(w, |p.unit.sent|, done)
    ensures BlocksStop(w, t, p, done, uses, saved, HandleBlocks(w, t, p, uses))
    decreases |uses|
  {
    hide HandleBlock, Keys, Misplaced, Malformed, Made, MadeCount;
    if uses != [] {
      var n := |p.unit.sent|;
      var b := uses[0];
      BlockStopsWell(w, t, p, b);
      BlockFrame(w, t, p, b);
      BlockKeysFresh(w, t, p, b);
      MadeSnoc(w, n, done, b);
      assert done + uses == (done + [b]) + uses[1..];
      match HandleBlock(w, t, p, b) {
        case Halt(q, out) =>
          if out == Blocked(Policy.ImageCreditsEmpty) {
            MadeGrows(w, n, done + [b], uses[1..]);
            CostGrows(w.cost, MadeCount(w, n, done) + 1, MadeCount(w, n, done + uses));
          }
        case More(q) =>
          NextBalance(w, n, done, b, saved, p.unit.work.account.purse.balance, q.unit.work.account.purse.balance);
          BlocksStopWell(w, t, q, done + [b], uses[1..], saved);
      }
    }
  }

  lemma {:induction false} NextBalance(w: World, n: nat, done: seq<Block>, b: Block, saved: int, before: int,
                                       after: int)
    requires before == saved - w.cost * MadeCount(w, n, done) && after == before - if Made(w, n, b) then w.cost else 0
    ensures after == saved - w.cost * MadeCount(w, n, done + [b])
  {
    hide Made, MadeCount;
    MadeSnoc(w, n, done, b);
    if Made(w, n, b) { assert w.cost * (MadeCount(w, n, done) + 1) == w.cost * MadeCount(w, n, done) + w.cost; }
  }

  // ---- rounds ----

  /** What a round leads to, in terms of the reply it got. */
  ghost predicate RoundStops(w: World, t: Turn, p: Progress, f: Flow) {
    var n := |p.unit.sent|;
    var r := w.model(n, Build(p.unit.work.chat.steps));
    match f
    case More(q) => UsesTools(r) && NoClient(w, r) && q.clients == []
    case Halt(q, out) => OneStop(w, t, p.unit.temporary, n + 1, r, q.unit.work.account.purse.balance, out)
  }

  /** The reply `r` to the `n`-th model call ends the generation so. */
  ghost predicate OneStop(w: World, t: Turn, temporary: bool, n: nat, r: Reply, balance: int, out: Outcome) {
    match out
    case AssistantMessageOut(_, _, _) => Concludes(r)
    case MaxTokensOut(_, _, _) => r.Reply? && r.stop.MaxTokens?
    case ToolCallOut(_, _, _, _) => UsesTools(r) && !NoClient(w, r)
    case Blocked(ByokInvalid) => r.AuthRejected? && t.mode.Byok?
    case Blocked(CreditsEmpty) => Concludes(r) && t.plan.DebitCredit? && balance < 1
    case Blocked(ImageCreditsEmpty) => UsesTools(r) && balance < w.cost * MadeCount(w, n, ToolUses(r.content))
    case Raised(AuthError) => r.AuthRejected? && !t.mode.Byok?
    case Raised(UpstreamError) =>
      || r.Unavailable?
      || (UsesTools(r) && exists b :: b in r.content && Misplaced(w, t.hasProject, temporary, b))
    case Raised(ValidationError) => UsesTools(r) && exists b :: b in r.content && Malformed(w, b)
    case Raised(ConflictError) =>
      (Concludes(r) && t.plan.DebitCredit?) || (UsesTools(r) && exists b :: b in r.content && Made(w, n, b))
    case _ => false
  }

  lemma {:induction false} FinalizeStops(w: World, t: Turn, q: Progress, r: Reply, n: nat)
    requires q.unit.log != [] && Concludes(r) && q.unit.log[|q.unit.log| - 1] == q.unit.work
    ensures var f := Finalize(t, q, r.content);
            f.Halt? && OneStop(w, t, q.unit.temporary, n, r, f.p.unit.work.account.purse.balance, f.out)
  {
    hide Find, Made, Misplaced, Malformed;
  }

  lemma {:induction false} BlocksAreOneStop(w: World, t: Turn, p: Progress, r: Reply, f: Flow)
    requires UsesTools(r) && f.Halt?
    requires BlocksStop(w, t, p, [], ToolUses(r.content), p.unit.work.account.purse.balance, f)
    ensures OneStop(w, t, p.unit.temporary, |p.unit.sent|, r, f.p.unit.work.account.purse.balance, f.out)
  {
    hide MadeCount, Made, Misplaced, Malformed;
    var uses := ToolUses(r.content);
    assert [] + uses == uses;
  }

  lemma {:induction false} ToolUseStops(w: World, t: Turn, q: Progress, r: Reply)
    requires q.unit.log != [] && UsesTools(r) && q.unit.log[|q.unit.log| - 1] == q.unit.work && KeysFresh(q.unit)
    ensures match HandleToolUse(w, t, q, r.content)
            case More(x) => x.clients == [] <==> NoClient(w, r)
            case Halt(x, out) => OneStop(w, t, q.unit.temporary, |q.unit.sent|, r, x.unit.work.account.purse.balance, out)
  {
    hide HandleBlocks, HandleBlock, Keys, Made, Misplaced, Malformed, OneStop;
    var uses := ToolUses(r.content);
    var x := q.(unit := Write(q.unit, t.id, Assistant(r.content, false)), clients := []);
    if b :| b in uses && w.kind(b.name).Image? && w.validate(b.name, b.input).None? {
      InvalidImage(w, t, q, r, b);
    } else {
      assert MadeCount(w, |q.unit.sent|, []) == 0;
      BlocksStopWell(w, t, x, [], uses, q.unit.work.account.purse.balance);
      if HandleBlocks(w, t, x, uses).Halt? { BlocksAreOneStop(w, t, x, r, HandleBlocks(w, t, x, uses)); }
    }
  }

  lemma {:induction false} InvalidImage(w: World, t: Turn, q: Progress, r: Reply, b: Block)
    requires q.unit.log != [] && UsesTools(r) && b in ToolUses(r.content)
    requires w.kind(b.name).Image? && w.validate(b.name, b.input).None?
    ensures HandleToolUse(w, t, q, r.content) == Halt(q, Raised(ValidationError))
    ensures OneStop(w, t, q.unit.temporary, |q.unit.sent|, r, q.unit.work.account.purse.balance, Raised(ValidationError))
  {
    hide HandleBlocks, Made, Misplaced;
    MalformedImage(w, b);
    assert b in r.content;
  }

  lemma {:induction false} MalformedImage(w: World, b: Block)
    requires b.ToolUse? && w.kind(b.name).Image? && w.validate(b.name, b.input).None?
    ensures Malformed(w, b)
  {
  }

  lemma {:induction false} RoundStopsWell(w: World, t: Turn, p: Progress)
    requires KeysFresh(p.unit)
    ensures RoundStops(w, t, p, Round(w, t, p))
  {
    hide HandleToolUse, Finalize, Keys, Made, Misplaced, Malformed, NoClient;
    var u := Commit(p.unit);
    var q := p.(unit := u.(sent := u.sent + [u.work.chat]));
    var r := w.model(|p.unit.sent|, Build(p.unit.work.chat.steps));
    if r.Reply? && !r.stop.MaxTokens? {
      if UsesTools(r) { ToolUseStops(w, t, q, r); } else { FinalizeStops(w, t, q, r, |q.unit.sent|); }
    }
  }

  lemma {:induction false} BlocksKeysFresh(w: World, t: Turn, p: Progress, uses: seq<Block>)
    requires p.unit.log != [] && KeysFresh(p.unit) && forall b :: b in uses ==> b.ToolUse?
    ensures HandleBlocks(w, t, p, uses).More? ==> KeysFresh(HandleBlocks(w, t, p, uses).p.unit)
    decreases |uses|
  {
    hide HandleBlock, Keys, KeysFresh;
    if uses != [] {
      BlockFrame(w, t, p, uses[0]);
      BlockKeysFresh(w, t, p, uses[0]);
      match HandleBlock(w, t, p, uses[0]) {
        case Halt(_, _) =>
        case More(q) => BlocksKeysFresh(w, t, q, uses[1..]);
      }
    }
  }

  lemma {:induction false} RoundKeysFresh(w: World, t: Turn, p: Progress)
    requires KeysFresh(p.unit)
    ensures Round(w, t, p).More? ==> KeysFresh(Round(w, t, p).p.unit)
  {
    hide HandleBlocks, Keys, Consume;
    var u := Commit(p.unit);
    var q := p.(unit := u.(sent := u.sent + [u.work.chat]));
    var r := w.model(|p.unit.sent|, Build(p.unit.work.chat.steps));
    if UsesTools(r) {
      BlocksKeysFresh(w, t, q.(unit := Write(q.unit, t.id, Assistant(r.content, false)), clients := []),
                      ToolUses(r.content));
    }
  }

  // ---- generations ----

  /** Why a generation ended: every reply but the last asked for server-side tools only, and the last one, or
      having used up the rounds, leads to the outcome. `balance` is that of the account it leaves. */
  ghost predicate StoppedBy(w: World, t: Turn, temporary: bool, rounds: nat, sent: seq<Chat>, balance: int,
                            out: Outcome) {
    && sent != []
    && (forall i :: 0 <= i < |sent| - 1 ==> UsesTools(Answered(w, sent, i)) && NoClient(w, Answered(w, sent, i)))
    && var r := Answered(w, sent, |sent| - 1);
       || OneStop(w, t, temporary, |sent|, r, balance, out)
       || (out == Raised(UpstreamError) && |sent| == rounds && UsesTools(r) && NoClient(w, r))
  }

  /** The same from the middle of a generation on. */
  ghost predicate StoppedFrom(w: World, t: Turn, p: Progress, n: nat, q: Progress, out: Outcome) {
    var k, sent := |p.unit.sent|, q.unit.sent;
    && k < |sent| && p.unit.sent <= sent && sent[k] == p.unit.work.chat
    && (forall i :: k <= i < |sent| - 1 ==> UsesTools(Answered(w, sent, i)) && NoClient(w, Answered(w, sent, i)))
    && var r := Answered(w, sent, |sent| - 1);
       || OneStop(w, t, p.unit.temporary, |sent|, r, q.unit.work.account.purse.balance, out)
       || (out == Raised(UpstreamError) && |sent| == k + n && UsesTools(r) && NoClient(w, r))
  }

  lemma {:induction false} LoopStops(w: World, t: Turn, p: Progress, n: nat)
    requires KeysFresh(p.unit) && n > 0
    ensures var (q, out) := Loop(w, t, p, n); StoppedFrom(w, t, p, n, q, out)
    decreases n
  {
    hide Round, KeysFresh, OneStop, NoClient, UsesTools;
    RoundStopsWell(w, t, p);
    RoundSends(w, t, p);
    RoundKeysFresh(w, t, p);
    match Round(w, t, p) {
      case Halt(_, _) =>
      case More(q) =>
        assert q.unit.sent[|p.unit.sent|] == p.unit.work.chat;
        if n > 1 {
          LoopStops(w, t, q, n - 1);
          assert Loop(w, t, p, n).0.unit.sent[|p.unit.sent|] == p.unit.work.chat;
        } else {
          assert Loop(w, t, q, 0).0.unit.sent == q.unit.sent;
        }
    }
  }

  // ---- requests that reach their policy check ----

  /** What stands in the way of a request, by the fields of the account: the policy's reasons, and a stored
      key of a provider that is not known. */
  predicate RefusedFor(a: Account, mode: Policy.Mode, reason: Policy.Reason) {
    match reason
    case SubscriptionExpired => a.subscription.Expired?
    case SubscriptionRequired => mode.Byok? && a.subscription.NoSubscription?
    case CreditsEmpty => mode.Credits? && a.subscription.Active? && a.purse.balance == 0
    case TrialUsed => mode.Credits? && a.subscription.NoSubscription? && a.trialUsed
    case ByokDisabled =>
      mode.Byok? && a.subscription.Active? && (a.key.NoKey? || !a.key.enabled || a.key.status.Disabled?)
    case ByokInvalid =>
      && mode.Byok? && a.subscription.Active? && a.key.StoredKey? && a.key.enabled && !a.key.status.Disabled?
      && (!a.key.status.Valid? || !a.key.providerKnown)
    case _ => false
  }

  /** At most one reason applies; a request is refused for it without a model call, and otherwise its
      generation stops for what the last reply says. */
  ghost predicate Explained(w: World, a: Account, t: Turn, temporary: bool, after: int, trace: Trace) {
    if exists reason :: RefusedFor(a, t.mode, reason)
    then trace.out.Blocked? && RefusedFor(a, t.mode, trace.out.reason) && trace.sent == []
         && forall reason :: RefusedFor(a, t.mode, reason) ==> reason == trace.out.reason
    else StoppedBy(w, t, temporary, w.rounds + 1, trace.sent, after, trace.out)
  }

  lemma {:induction false} OneReason(a: Account, mode: Policy.Mode, x: Policy.Reason, y: Policy.Reason)
    requires RefusedFor(a, mode, x) && RefusedFor(a, mode, y)
    ensures x == y
  {
  }

  lemma {:induction false} PolicyRefuses(a: Account, mode: Policy.Mode, reason: Policy.Reason)
    ensures RefusedFor(a, mode, reason) <==>
              || Policy.Evaluate(a.PolicyState(), mode) == Policy.Block(reason)
              || (Policy.Evaluate(a.PolicyState(), mode).Allow? && reason.ByokInvalid? && mode.Byok?
                  && a.key.StoredKey? && !a.key.providerKnown)
  {
    Policy.ReasonNamesObstacle(a.PolicyState(), mode);
  }

  lemma {:induction false} ContinueExplained(w: World, turn: Id, mode: Policy.Mode, hasProject: bool, u: Unit)
    requires Starts(u) && KeysFresh(u)
    ensures var (p, out) := Continue(w, turn, mode, hasProject, u);
            var t := Turn(turn, mode, Policy.BillingPlan(mode, u.work.account.PolicyState()), hasProject);
            Explained(w, u.work.account, t, u.temporary, p.unit.work.account.purse.balance,
                      Trace(out, p.unit.log, p.unit.sent))
  {
    hide Loop, OneStop, NoClient, UsesTools, KeysFresh, RefusedFor;
    var a := u.work.account;
    var t := Turn(turn, mode, Policy.BillingPlan(mode, a.PolicyState()), hasProject);
    forall x | RefusedFor(a, mode, x)
      ensures || Policy.Evaluate(a.PolicyState(), mode) == Policy.Block(x)
              || (Policy.Evaluate(a.PolicyState(), mode).Allow? && x.ByokInvalid? && mode.Byok?
                  && a.key.StoredKey? && !a.key.providerKnown)
    {
      PolicyRefuses(a, mode, x);
    }
    var d := Policy.Evaluate(a.PolicyState(), mode);
    if d.Block? { PolicyRefuses(a, mode, d.reason); }
    PolicyRefuses(a, mode, Policy.ByokInvalid);
    LoopStops(w, t, Progress(u, [], [], []), w.rounds + 1);
  }

  lemma {:induction false} FinishExplained(w: World, a: Account, t: Turn, temporary: bool, p: Progress, out: Outcome)
    requires Explained(w, a, t, temporary, p.unit.work.account.purse.balance, Trace(out, p.unit.log, p.unit.sent))
    ensures var (q, o) := Finish((p, out));
            var after := if q.unit.log == [] then 0 else q.unit.log[|q.unit.log| - 1].account.purse.balance;
            Explained(w, a, t, temporary, after, Trace(o, q.unit.log, q.unit.sent))
  {
    hide NoClient, UsesTools, Concludes, Misplaced, Malformed, Made, MadeCount, RefusedFor;
  }

  /** Why a request that gets as far as its policy check ends as it does. */
  lemma {:induction false} OutcomeExplained(cost: int, w: World, db: Database, r: Request)
    requires DbInv(cost, db) && w.cost == cost && BaseOf(w, db, r).Some?
    ensures ModeOf(db, r).Some?
    ensures var (after, trace) := Exec(w, db, r);
            var mode := ModeOf(db, r).value;
            var plan := Policy.BillingPlan(mode, db.account.PolicyState());
            var t := Turn(BaseOf(w, db, r).value.turn, mode, plan, InProject(db, r));
            Explained(w, db.account, t, r.TemporaryRun?,
                      if trace.log == [] then 0 else trace.log[|trace.log| - 1].account.purse.balance, trace)
  {
    hide Exec, DbInv, BaseOf, Continue, Finish, Explained, KeysFresh;
    BaseHasMode(w, db, r);
    BaseIds(cost, w, db, r);
    var b := BaseOf(w, db, r).value;
    if r.TemporaryRun? {
      TemporaryStart(w, db, r);
      var u := Unit(b.store, [], b.next, [], true);
      StartsFresh(b, u);
      SameBaseAccount(w, db, r);
      ContinueExplained(w, b.turn, r.mode, false, u);
      var (p, out) := Continue(w, b.turn, r.mode, false, u);
      var t := Turn(b.turn, r.mode, Policy.BillingPlan(r.mode, db.account.PolicyState()), false);
      FinishExplained(w, db.account, t, true, p, out);
    } else {
      GenerationIs(w, db, r);
      var s := Place(db, r).1;
      StartsFresh(b, Opening(b));
      SameBaseAccount(w, db, r);
      ContinueExplained(w, b.turn, s.mode, s.hasProject, Opening(b));
      var (p, out) := Continue(w, b.turn, s.mode, s.hasProject, Opening(b));
      var t := Turn(b.turn, s.mode, Policy.BillingPlan(s.mode, db.account.PolicyState()), s.hasProject);
      FinishExplained(w, db.account, t, false, p, out);
    }
  }

  lemma {:induction false} StartsFresh(b: Base, u: Unit)
    requires Ids(b, u)
    ensures KeysFresh(u)
  {
  }

  lemma {:induction false} SameBaseAccount(w: World, db: Database, r: Request)
    requires BaseOf(w, db, r).Some?
    ensures BaseOf(w, db, r).value.store.account == db.account
  {
    hide Truncate, ApplyResults, PendingClient, NextStepAfter, Resolve;
  }

  // ---- requests that do not ----

  /** The user steps of a turn. */
  predicate SpokenBy(c: Chat, turn: Id) {
    exists i :: 0 <= i < |c.steps| && c.steps[i].turn == turn && c.steps[i].body.User?
  }

  /** A run is turned away exactly when it edits a message that its session does not have; a new session, and
      a temporary chat, has none. */
  lemma {:induction false} RunTurnedAway(w: World, db: Database, r: Request)
    requires r.Run? || r.TemporaryRun?
    ensures BaseOf(w, db, r).None? <==>
              r.request.edit.Some?
              && (r.TemporaryRun? || Target(db, r).2 || !SpokenBy(Target(db, r).1.chat, r.request.edit.value))
    ensures BaseOf(w, db, r).None? ==> Exec(w, db, r).1 == Trace(Raised(MessageNotFound), [], [])
    ensures BaseOf(w, db, r).None? ==> Exec(w, db, r).0.sessions == db.sessions && Exec(w, db, r).0.account == db.account
  {
    hide Continue, CutAt;
    if r.Run? && r.request.edit.Some? {
      var c := Target(db, r).1.chat;
      var turn := r.request.edit.value;
      assert SpokenBy(c, turn) <==> exists i :: 0 <= i < |c.steps| && IsUser(turn)(c.steps[i]);
    }
  }

  /** A run works on the session it names, if that exists and has not expired, and else on a new one in the
      mode it asks for. */
  lemma {:induction false} RunTargets(db: Database, r: Request)
    requires r.Run?
    ensures var (id, s, isNew) := Target(db, r);
            && (!isNew <==> r.resume.Some? && r.resume.value in db.sessions && !r.expired)
            && (!isNew ==> id == r.resume.value && s == db.sessions[id])
            && (isNew ==>
                  && id == db.next && s.chat.steps == [] && s.chat.calls == map[]
                  && s.mode == r.mode && s.hasProject == r.hasProject)
  {
  }

  predicate Misfit(c: Chat, items: seq<ResultItem>, i: int)
    requires 0 <= i < |items|
  {
    || items[i].call !in c.calls
    || (items[0].call in c.calls && c.calls[items[i].call].turn != c.calls[items[0].call].turn)
  }

  /** The first item that names no call of the session, or one of another turn than the items before it. */
  lemma {:induction false} FirstMisfit(c: Chat, items: seq<ResultItem>, i: nat)
    requires i <= |items| && forall j :: 0 <= j < i ==> !Misfit(c, items, j)
    ensures i > 0 ==> !Misfit(c, items, 0)
    ensures Resolve(c, items, None) == Resolve(c, items[i..], if i == 0 then None else Some(c.calls[items[0].call].turn))
  {
    if i > 0 {
      FirstMisfit(c, items, i - 1);
      assert items[i - 1..][0] == items[i - 1] && items[i - 1..][1..] == items[i..];
      assert !Misfit(c, items, i - 1) && !Misfit(c, items, 0);
    } else {
      assert items[0..] == items;
    }
  }

  /** Client calls of the turn that have no result yet and get none from the batch. */
  ghost predicate StillOpen(w: World, c: Chat, turn: Id, items: seq<ResultItem>, id: Id) {
    && id in c.calls && c.calls[id].turn == turn && c.calls[id].status.Pending? && w.kind(c.calls[id].tool).Client?
    && forall i :: 0 <= i < |items| ==> items[i].call != id
  }

  /** A batch of results is turned away for its first misfit; one that fits is stored, and then waits for
      exactly the calls still open, if there are any. */
  lemma {:induction false} ResultsTurnedAway(w: World, db: Database, session: Id, items: seq<ResultItem>, i: nat)
    requires session in db.sessions ==> i <= |items| && forall j :: 0 <= j < i ==>
        !Misfit(db.sessions[session].chat, items, j)
    ensures var out := Exec(w, db, ToolResult(session, items)).1.out;
            && (session !in db.sessions ==> out == Raised(NotFound))
            && (session in db.sessions && items == [] ==> out == Raised(ValidationError))
            && (session in db.sessions && i < |items| && Misfit(db.sessions[session].chat, items, i) ==>
                  out == Raised(if items[i].call in db.sessions[session].chat.calls then ValidationError else NotFound))
  {
    hide Continue, ApplyResults, PendingClient, NextStepAfter;
    if session in db.sessions {
      var c := db.sessions[session].chat;
      FirstMisfit(c, items, i);
      if i < |items| {
        assert items[i..][0] == items[i];
        if i > 0 { assert !Misfit(c, items, 0); }
      }
    }
  }

  lemma {:induction false} WaitsForOpen(w: World, db: Database, session: Id, items: seq<ResultItem>, turn: Id)
    requires session in db.sessions && BatchFor(db.sessions[session].chat, turn, items)
    ensures var c := db.sessions[session].chat;
            var (after, trace) := Exec(w, db, ToolResult(session, items));
            && (trace.out.Awaiting? <==> exists id :: StillOpen(w, c, turn, items, id))
            && (trace.out.Awaiting? ==>
                  && (forall id :: id in trace.out.pending <==> StillOpen(w, c, turn, items, id))
                  && trace.sent == [] && after.account == db.account && session in after.sessions
                  && after.sessions[session].chat == ApplyResults(c, items))
  {
    hide Continue, ApplyResults, PendingClient, NextStepAfter, FirstFor, ToolResultTurn;
    var s := db.sessions[session];
    var u := Unit(Store(s.chat, db.account), [], db.next, [], false);
    BatchIs(w, s, turn, items, u);
    StillPending(w, s.chat, turn, items);
    OpenAre(w, s.chat, turn, items);
    ContinueSettles(w, turn, s.mode, s.hasProject, SetChat(u, ApplyResults(s.chat, items)));
  }

  lemma {:induction false} OpenAre(w: World, c: Chat, turn: Id, items: seq<ResultItem>)
    ensures forall id :: id in Unanswered(w, c, turn, items) <==> StillOpen(w, c, turn, items, id)
  {
  }

  /** Requests from outside the chat, by the rows of the ledger: a debit or credit already on record is
      accepted and changes nothing; a new one moves the balance by its amount and leaves its row, unless it is
      not positive, or is a debit that the balance does not cover; what is refused leaves no row. */
  lemma {:induction false} OutsideAnswers(w: World, db: Database, r: Request)
    requires Sound(db.account.purse)
    requires r.WalletConsume? || r.WalletGrant? || r.SetSubscription? || r.SetKey?
    ensures var (after, trace) := Exec(w, db, r);
            && trace.log == [] && trace.sent == [] && after.sessions == db.sessions && after.next == db.next
            && match r
               case SetSubscription(s) => trace.out.Accepted? && after.account == db.account.(subscription := s)
               case SetKey(k) => trace.out.Accepted? && after.account == db.account.(key := k)
               case _ =>
                 var p, row := db.account.purse, Row(Named(r.name), if r.WalletConsume? then Debit else Credit, r.amount);
                 var free := forall x :: x in p.ledger ==> x.key != row.key;
                 if r.amount > 0 && row in p.ledger then trace.out.Accepted? && after == db
                 else if r.amount <= 0 || !free then trace.out == Raised(ConflictError) && after == db
                 else if r.WalletConsume? && p.balance < r.amount then
                   trace.out == Raised(InsufficientCredits) && after == db
                 else
                   && trace.out.Accepted?
                   && after.account == db.account.(purse := Purse(p.balance + Signed(row), p.ledger + [row]))
  {
    hide Consume, Grant, Find, Keys, UniqueKeys, Net;
    if r.WalletConsume? { DebitVerdict(db.account.purse, Named(r.name), r.amount); }
    if r.WalletGrant? { CreditVerdict(db.account.purse, Named(r.name), r.amount); }
  }
}
