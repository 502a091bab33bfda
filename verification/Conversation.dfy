/** Every history sent to the model is paired, exactly when the one a generation starts from is. */
module Conversation {
  import opened Wallet
  import opened Records
  import opened Repository
  import opened Engine
  import opened Pairing
  import opened History
  import opened Growth
  import Policy

  /** What the provider adapters guarantee: distinct tool_use ids, none in an `end_turn` reply. */
  ghost predicate ReplyOk(r: Reply) {
    r.Reply? ==> DistinctIds(ToolUses(r.content)) && (r.stop.EndTurn? ==> ToolIds(r.content) == {})
  }

  ghost predicate WorldOk(w: World) { forall n, ms :: ReplyOk(w.model(n, ms)) }

  /** A state reached from `c`: consistent, and intact if `c` was acceptable. */
  ghost predicate Fit(c: Chat, d: Chat) {
    PairInv(d) && (Ready(c) ==> Open(d).Some?)
  }

  ghost predicate SentFit(c: Chat, sent: seq<Chat>) {
    forall i :: 0 <= i < |sent| ==> (Ready(sent[i]) <==> Ready(c))
  }

  ghost predicate LogFit(c: Chat, u: Unit) {
    !u.temporary ==> forall i :: 0 <= i < |u.log| ==> Fit(c, u.log[i].chat)
  }

  ghost predicate PairFlow(c: Chat, f: Flow) {
    && SentFit(c, f.p.unit.sent)
    && LogFit(c, f.p.unit)
    && match f
       case More(p) => PairInv(p.unit.work.chat) && (Ready(p.unit.work.chat) <==> Ready(c))
       case Halt(p, out) => !p.unit.temporary && !out.Raised? ==> Fit(c, p.unit.work.chat)
  }

  /** In the middle of a reply: `rest` is still to be handled. */
  ghost predicate Mid(t: Turn, p: Progress, rest: seq<Block>) {
    && MidInv(p.unit.work.chat, rest)
    && Asker(p.unit.work.chat.steps) == Some(t.id)
    && forall id :: id in p.unit.work.chat.calls ==> id < p.unit.next
  }

  lemma {:induction false} PersistPairs(t: Turn, p: Progress, id: Id, x: Execution, rest: seq<Block>)
    requires Mid(t, p, rest) && IsPending(p.unit.work.chat, id)
    ensures Mid(t, Persist(p, id, x), rest)
    ensures Open(Persist(p, id, x).unit.work.chat).Some? <==> Open(p.unit.work.chat).Some?
  {
    hide MidInv, Asker, Open;
    var c := p.unit.work.chat;
    var body := Tool(id, c.calls[id].provider, c.calls[id].tool,
                     if x.Done? then Some(x.result) else None, if x.Refused? then Some(x.code) else None);
    AnswerKeepsMid(c, id, body, rest);
    AskerSnoc(c.steps, Step(c.calls[id].turn, body));
  }

  lemma {:induction false} ImagePairs(w: World, t: Turn, p: Progress, id: Id, provider: string, rest: seq<Block>)
    requires Mid(t, p, rest) && IsPending(p.unit.work.chat, id) && p.unit.log != []
    ensures var f := ExecuteImage(w, t, p, id, provider);
            f.More? ==> Mid(t, f.p, rest) && (Open(f.p.unit.work.chat).Some? <==> Open(p.unit.work.chat).Some?)
  {
    hide Mid, Persist, Open, Consume;
    match w.picture(|p.unit.sent|, provider)
    case PolicyRefusal => PersistPairs(t, p, id, Refused("content_policy"), rest);
    case GenerationFailed => PersistPairs(t, p, id, Refused("image_generation_failed"), rest);
    case Bytes =>
      var a := p.unit.work.account;
      var purse := Consume(a.purse, Uuid(id), w.cost).0;
      var r := p.(unit := SetAccount(p.unit, a.(purse := purse, images := a.images + [ImageRow(t.id, id)])),
                  images := p.images + [id]);
      SameMid(t, p, r, rest);
      PersistPairs(t, r, id, Done("image"), rest);
  }

  lemma {:induction false} SameMid(t: Turn, p: Progress, q: Progress, rest: seq<Block>)
    requires Mid(t, p, rest) && q.unit.work.chat == p.unit.work.chat && q.unit.next == p.unit.next
    ensures Mid(t, q, rest)
  {
  }

  lemma {:induction false} OpenPairs(t: Turn, p: Progress, rest: seq<Block>, args: string)
    requires Mid(t, p, rest) && rest != [] && rest[0].ToolUse?
    ensures var q := p.(unit := OpenCall(p.unit, t.id, rest[0].name, args, rest[0].id));
            && Mid(t, q, rest[1..])
            && IsPending(q.unit.work.chat, p.unit.next)
            && Open(q.unit.work.chat) == Open(p.unit.work.chat)
  {
    hide MidInv, Asker, Scan;
    OpenCallKeepsMid(p.unit.work.chat, p.unit.next, t.id, args, rest);
  }

  lemma {:induction false} BlockPairs(w: World, t: Turn, p: Progress, rest: seq<Block>)
    requires Mid(t, p, rest) && rest != [] && rest[0].ToolUse? && p.unit.log != []
    ensures var f := HandleBlock(w, t, p, rest[0]);
            f.More? ==> Mid(t, f.p, rest[1..]) && (Open(f.p.unit.work.chat).Some? <==> Open(p.unit.work.chat).Some?)
  {
    hide MidInv, Asker, Open, ExecuteImage, Persist;
    var b := rest[0];
    var checked := w.validate(b.name, b.input);
    var args := if checked.Some? then checked.value else b.input;
    var id := p.unit.next;
    var q := p.(unit := OpenCall(p.unit, t.id, b.name, args, b.id));
    OpenPairs(t, p, rest, args);
    match w.kind(b.name)
    case Image => ImagePairs(w, t, q, id, b.id, rest[1..]);
    case Client =>
    case _ => PersistPairs(t, q, id, w.execute(id, b.name, args), rest[1..]);
  }

  lemma {:induction false} BlocksPair(w: World, t: Turn, p: Progress, rest: seq<Block>)
    requires Mid(t, p, rest) && p.unit.log != [] && forall x :: x in rest ==> x.ToolUse?
    ensures var f := HandleBlocks(w, t, p, rest);
            f.More? ==> Mid(t, f.p, []) && (Open(f.p.unit.work.chat).Some? <==> Open(p.unit.work.chat).Some?)
    decreases |rest|
  {
    hide Mid, HandleBlock, Open;
    if rest != [] {
      BlockPairs(w, t, p, rest);
      BlockFrame(w, t, p, rest[0]);
      match HandleBlock(w, t, p, rest[0]) {
        case Halt(_, _) =>
        case More(q) => BlocksPair(w, t, q, rest[1..]);
      }
    }
  }

  /** An intact history with no pending call waits for nothing. */
  lemma {:induction false} QuietIsReady(c: Chat)
    requires MidInv(c, []) && Open(c).Some? && forall id :: !IsPending(c, id)
    ensures Ready(c)
  {
    hide Scan, Asker;
    assert Ids([]) == {};
    forall p ensures p !in Open(c).value {
      assert !Waits(c, p);
    }
    assert Open(c).value == {};
  }

  lemma {:induction false} NothingWaits(b: Base, p: Progress)
    requires PairInv(b.store.chat) && Ready(b.store.chat)
    requires Kept(b, p.unit) && Tallied(b, p, {}) && p.clients == []
    ensures forall id :: !IsPending(p.unit.work.chat, id)
  {
    hide PairInv, Ready, AccountGrew, SentOk, ToolsOf;
    ReadyIsQuiet(b.store.chat);
    assert ClientIds([]) == {};
    forall id ensures !IsPending(p.unit.work.chat, id) {
      assert !NewPending(b, p.unit.work.chat, id);
      if id in b.store.chat.calls { assert !IsPending(b.store.chat, id); }
    }
  }

  /** A reply with tool_use blocks, up to its commit. */
  lemma {:induction false} ToolUsePairs(w: World, t: Turn, b: Base, p: Progress, content: seq<Block>)
    requires Kept(b, p.unit) && Tallied(b, p, {}) && p.clients == [] && b.turn == t.id && Grounded(b)
    requires PairInv(b.store.chat) && PairInv(p.unit.work.chat) && (Ready(p.unit.work.chat) <==> Ready(b.store.chat))
    requires DistinctIds(ToolUses(content)) && p.unit.log != []
    ensures var r := p.(unit := Write(p.unit, t.id, Assistant(content, false)), clients := []);
            match HandleBlocks(w, t, r, ToolUses(content))
            case Halt(_, _) => true
            case More(x) =>
              && Fit(b.store.chat, x.unit.work.chat)
              && (x.clients == [] ==> (Ready(x.unit.work.chat) <==> Ready(b.store.chat)))
  {
    hide Kept, Tallied, PairInv, Ready, HandleBlocks, Scan, Asker, ToolUses, Grounded;
    var c := p.unit.work.chat;
    var r := p.(unit := Write(p.unit, t.id, Assistant(content, false)), clients := []);
    AskStartsMid(c, t.id, content);
    AskerSnoc(c.steps, Step(t.id, Assistant(content, false)));
    CallsOfKept(b, p.unit);
    BlocksPair(w, t, r, ToolUses(content));
    WriteGrew(b, p, Assistant(content, false), {});
    Parts(b, p, {});
    HandleBlocksGrew(w, t, b, r, ToolUses(content));
    match HandleBlocks(w, t, r, ToolUses(content))
    case Halt(_, _) =>
    case More(x) =>
      MidIsPair(x.unit.work.chat);
      if x.clients == [] && Ready(b.store.chat) {
        NothingWaits(b, x);
        QuietIsReady(x.unit.work.chat);
      }
      OpenReady(x.unit.work.chat);
  }

  lemma {:induction false} CallsOfKept(b: Base, u: Unit)
    requires Kept(b, u)
    ensures forall id :: id in u.work.chat.calls ==> id < u.next
  {
    hide AccountGrew, ChatGrew, SentOk;
  }

  lemma {:induction false} MidIsPair(c: Chat)
    requires MidInv(c, [])
    ensures PairInv(c)
  {
  }

  lemma {:induction false} OpenReady(c: Chat)
    ensures Ready(c) ==> Open(c).Some?
  {
  }

  lemma {:induction false} FinalizePairs(t: Turn, b: Base, p: Progress, content: seq<Block>)
    requires PairInv(p.unit.work.chat) && (Ready(p.unit.work.chat) <==> Ready(b.store.chat))
    requires SentFit(b.store.chat, p.unit.sent) && LogFit(b.store.chat, p.unit)
    requires p.unit.log != [] && ToolIds(content) == {}
    ensures PairFlow(b.store.chat, Finalize(t, p, content))
  {
    hide PairInv, Ready, Open, Consume;
    SpeakKeepsPair(p.unit.work.chat, t.id, Assistant(content, false));
    OpenReady(AddStep(p.unit.work.chat, t.id, Assistant(content, false)));
  }

  lemma {:induction false} NoToolIds(content: seq<Block>)
    requires ToolUses(content) == []
    ensures ToolIds(content) == {}
  {
    forall b | b in content ensures !b.ToolUse? { assert b in ToolUses(content) <==> b in content && b.ToolUse?; }
  }

  lemma {:induction false} RoundPairs(w: World, t: Turn, b: Base, p: Progress)
    requires WorldOk(w) && Kept(b, p.unit) && Tallied(b, p, {}) && p.clients == [] && b.turn == t.id && Grounded(b)
    requires PairInv(b.store.chat) && PairInv(p.unit.work.chat) && (Ready(p.unit.work.chat) <==> Ready(b.store.chat))
    requires SentFit(b.store.chat, p.unit.sent) && LogFit(b.store.chat, p.unit)
    ensures PairFlow(b.store.chat, Round(w, t, p))
  {
    hide Kept, Tallied, PairInv, Ready, Open, HandleBlocks, Finalize, ToolIds, Grounded, DistinctIds;
    var c0 := b.store.chat;
    var u := Commit(p.unit);
    var q := p.(unit := u.(sent := u.sent + [u.work.chat]));
    AskGrew(b, p);
    OpenReady(u.work.chat);
    assert SentFit(c0, q.unit.sent) && LogFit(c0, q.unit);
    var reply := w.model(|u.sent|, Build(u.work.chat.steps));
    assert ReplyOk(reply);
    match reply
    case Unavailable =>
    case AuthRejected =>
    case Reply(stop, content) =>
      if stop.MaxTokens? {
        CutKeepsPair(u.work.chat, t.id, content);
      } else if stop.ToolUseStop? && ToolUses(content) != [] {
        var r := q.(unit := Write(q.unit, t.id, Assistant(content, false)), clients := []);
        ToolUsePairs(w, t, b, q, content);
        BlocksFrame(w, t, r, ToolUses(content));
        BlocksEnd(w, t, r, ToolUses(content));
      } else {
        if stop.ToolUseStop? { NoToolIds(content); }
        FinalizePairs(t, b, q, content);
      }
  }

  /** A reply handled only in part leaves the last committed rows, or only a temporary chat's memory. */
  lemma {:induction false} BlocksEnd(w: World, t: Turn, p: Progress, uses: seq<Block>)
    requires p.unit.log != [] && forall x :: x in uses ==> x.ToolUse?
    ensures match HandleBlocks(w, t, p, uses)
            case More(q) => q.unit.temporary == p.unit.temporary
            case Halt(q, out) =>
              && q.unit.temporary == p.unit.temporary
              && (out.Raised? || q.unit.temporary || q.unit.work == p.unit.log[|p.unit.log| - 1])
    decreases |uses|
  {
    hide HandleBlock;
    if uses != [] {
      BlockFrame(w, t, p, uses[0]);
      BlockEnd(w, t, p, uses[0]);
      match HandleBlock(w, t, p, uses[0]) {
        case Halt(_, _) =>
        case More(q) => BlocksEnd(w, t, q, uses[1..]);
      }
    }
  }

  lemma {:induction false} BlockEnd(w: World, t: Turn, p: Progress, block: Block)
    requires block.ToolUse? && p.unit.log != []
    ensures match HandleBlock(w, t, p, block)
            case More(_) => true
            case Halt(q, out) => out.Raised? || q.unit.temporary || q.unit.work == p.unit.log[|p.unit.log| - 1]
  {
    hide Answer, Consume, CreateCall;
  }

  lemma {:induction false} LoopPairs(w: World, t: Turn, b: Base, p: Progress, n: nat)
    requires WorldOk(w) && Kept(b, p.unit) && Tallied(b, p, {}) && p.clients == [] && b.turn == t.id && Grounded(b)
    requires PairInv(b.store.chat) && PairInv(p.unit.work.chat) && (Ready(p.unit.work.chat) <==> Ready(b.store.chat))
    requires SentFit(b.store.chat, p.unit.sent) && LogFit(b.store.chat, p.unit)
    ensures var (q, out) := Loop(w, t, p, n); PairFlow(b.store.chat, Halt(q, out))
    decreases n
  {
    hide Kept, Tallied, PairInv, Ready, Open, Round, WorldOk, Grounded, SentFit;
    if n == 0 {
      OpenReady(p.unit.work.chat);
    } else {
      RoundPairs(w, t, b, p);
      RoundGrew(w, t, b, p);
      match Round(w, t, p) {
        case Halt(_, _) =>
        case More(q) => LoopPairs(w, t, b, q, n - 1);
      }
    }
  }

  /** The histories one generation sends are paired exactly when the one it starts from is, and every
      state it commits stays consistent (intact, if it started from an acceptable history). */
  lemma {:induction false} GenerationPairs(w: World, turn: Id, mode: Policy.Mode, hasProject: bool, u: Unit)
    requires WorldOk(w) && Starts(u) && Grounded(Base(u.work, u.next, turn)) && PairInv(u.work.chat)
    ensures var (p, out) := Finish(Continue(w, turn, mode, hasProject, u));
            && (forall i :: 0 <= i < |p.unit.sent| ==>
                  (Paired(Build(p.unit.sent[i].steps)) <==> Paired(Build(u.work.chat.steps))))
            && (!u.temporary ==> forall i :: 0 <= i < |p.unit.log| ==>
                  Fit(u.work.chat, p.unit.log[i].chat))
  {
    hide Kept, Tallied, PairInv, Loop, WorldOk, Grounded, Paired, Scan;
    var b := Base(u.work, u.next, turn);
    var s := u.work.account.PolicyState();
    NothingGrew(b, u);
    OpenReady(u.work.chat);
    LoopPairs(w, Turn(turn, mode, Policy.BillingPlan(mode, s), hasProject), b, Progress(u, [], [], []), w.rounds + 1);
    ContinueSends(w, turn, mode, hasProject, u);
    var (p, out) := Finish(Continue(w, turn, mode, hasProject, u));
    ScanDecidesPaired(Build(u.work.chat.steps));
    forall i | 0 <= i < |p.unit.sent|
      ensures Paired(Build(p.unit.sent[i].steps)) <==> Paired(Build(u.work.chat.steps))
    {
      ScanDecidesPaired(Build(p.unit.sent[i].steps));
    }
  }
}
