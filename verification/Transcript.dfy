/** What a generation sends and stores: the first history holds the new message or the new results, each
reply of the model stands, as it was, behind the history it was given, and nothing else but tool steps is
written. */
module Transcript {
  import opened Wallet
  import opened Records
  import opened Repository
  import opened Engine
  import opened Growth
  import opened Runs
  import opened Responses
  import opened ToolResults
  import opened ToolOutcomes
  import opened Stops
  import Policy

  // ---- replies as stored ----

  /** The `i`-th reply stands right behind the history it was given, word for word. */
  ghost predicate FromReply(w: World, sent: seq<Chat>, steps: seq<Step>, i: int) {
    && 0 <= i < |sent|
    && var (n, r) := (|sent[i].steps|, w.model(i, Build(sent[i].steps)));
       && n < |steps| && sent[i].steps == steps[..n] && r.Reply?
       && steps[n].body == Assistant(r.content, r.stop.MaxTokens?)
  }

  ghost predicate SaidAt(w: World, sent: seq<Chat>, steps: seq<Step>, k: int) {
    exists i :: 0 <= i < |sent| && |sent[i].steps| == k && FromReply(w, sent, steps, i)
  }

  /** Behind the base there are only replies of the model and tool steps. */
  ghost predicate Transcribed(w: World, base: seq<Step>, sent: seq<Chat>, steps: seq<Step>) {
    && base <= steps
    && forall k :: |base| <= k < |steps| ==> steps[k].body.Tool? || SaidAt(w, sent, steps, k)
  }

  /** The first `n` replies are stored. */
  ghost predicate AllSaid(w: World, sent: seq<Chat>, steps: seq<Step>, n: int) {
    forall i :: 0 <= i < n ==> FromReply(w, sent, steps, i)
  }

  /** Steps were added, all of them tool steps. */
  predicate AddsTools(a: seq<Step>, d: seq<Step>) { a <= d && forall k :: |a| <= k < |d| ==> d[k].body.Tool? }

  lemma {:induction false} ReplyStays(w: World, sent: seq<Chat>, more: seq<Chat>, a: seq<Step>, d: seq<Step>, i: int)
    requires FromReply(w, sent, a, i) && sent <= more && a <= d
    ensures FromReply(w, more, d, i)
  {
    hide Build;
    var n := |sent[i].steps|;
    assert more[i] == sent[i] && d[..n] == a[..n];
  }

  lemma {:induction false} TranscribedStays(w: World, base: seq<Step>, sent: seq<Chat>, more: seq<Chat>, a: seq<Step>,
                                            d: seq<Step>)
    requires Transcribed(w, base, sent, a) && sent <= more && AddsTools(a, d)
    ensures Transcribed(w, base, more, d)
  {
    hide FromReply;
    forall k | |base| <= k < |d| ensures d[k].body.Tool? || SaidAt(w, more, d, k) {
      if k < |a| && !d[k].body.Tool? {
        assert d[k] == a[k];
        var i :| 0 <= i < |sent| && |sent[i].steps| == k && FromReply(w, sent, a, i);
        SaidStill(w, sent, more, a, d, i);
      }
    }
  }

  lemma {:induction false} SaidStill(w: World, sent: seq<Chat>, more: seq<Chat>, a: seq<Step>, d: seq<Step>, i: int)
    requires FromReply(w, sent, a, i) && sent <= more && a <= d
    ensures 0 <= i < |sent| && SaidAt(w, more, d, |sent[i].steps|)
  {
    hide Build;
    ReplyStays(w, sent, more, a, d, i);
    assert more[i] == sent[i];
  }

  lemma {:induction false} AllStay(w: World, sent: seq<Chat>, more: seq<Chat>, a: seq<Step>, d: seq<Step>, n: int)
    requires AllSaid(w, sent, a, n) && sent <= more && a <= d
    ensures AllSaid(w, more, d, n)
  {
    hide FromReply;
    forall i | 0 <= i < n ensures FromReply(w, more, d, i) { ReplyStays(w, sent, more, a, d, i); }
  }

  /** A history is sent, and its reply is stored. */
  lemma {:induction false} ReplyAdded(w: World, base: seq<Step>, sent: seq<Chat>, c: Chat, turn: Id)
    requires Transcribed(w, base, sent, c.steps) && AllSaid(w, sent, c.steps, |sent|)
    requires w.model(|sent|, Build(c.steps)).Reply?
    ensures var r := w.model(|sent|, Build(c.steps));
            var d := c.steps + [Step(turn, Assistant(r.content, r.stop.MaxTokens?))];
            && Transcribed(w, base, sent + [c], d) && AllSaid(w, sent + [c], d, |sent| + 1)
  {
    hide Build;
    var r := w.model(|sent|, Build(c.steps));
    var d := c.steps + [Step(turn, Assistant(r.content, r.stop.MaxTokens?))];
    assert d[..|c.steps|] == c.steps;
    assert FromReply(w, sent + [c], d, |sent|);
    AllStay(w, sent, sent + [c], c.steps, d, |sent|);
    TranscribedStays(w, base, sent, sent + [c], c.steps, c.steps);
    forall k | |base| <= k < |d| ensures d[k].body.Tool? || SaidAt(w, sent + [c], d, k) {
      if k < |c.steps| && !d[k].body.Tool? {
        assert d[k] == c.steps[k];
        var i :| 0 <= i < |sent| && |sent[i].steps| == k && FromReply(w, sent, c.steps, i);
        SaidStill(w, sent, sent + [c], c.steps, d, i);
      } else if k == |c.steps| {
        assert (sent + [c])[|sent|].steps == c.steps;
      }
    }
  }

  // ---- blocks ----

  lemma {:induction false} BlockAdds(w: World, t: Turn, p: Progress, b: Block)
    requires b.ToolUse? && p.unit.log != []
    ensures var d := HandleBlock(w, t, p, b).p.unit.work.chat.steps;
            AddsTools(p.unit.work.chat.steps, d) || d == p.unit.log[|p.unit.log| - 1].chat.steps
    ensures HandleBlock(w, t, p, b).More? ==>
              AddsTools(p.unit.work.chat.steps, HandleBlock(w, t, p, b).p.unit.work.chat.steps)
  {
    hide Persist, ExecuteImage;
    var checked := w.validate(b.name, b.input);
    var args := if checked.Some? then checked.value else b.input;
    var q := p.(unit := OpenCall(p.unit, t.id, b.name, args, b.id));
    match w.kind(b.name)
    case Image => ImageAdds(w, t, q, p.unit.next, b.id);
    case Client =>
    case _ => PersistAdds(q, p.unit.next, w.execute(p.unit.next, b.name, args));
  }

  lemma {:induction false} PersistAdds(p: Progress, id: Id, x: Execution)
    requires id in p.unit.work.chat.calls
    ensures AddsTools(p.unit.work.chat.steps, Persist(p, id, x).unit.work.chat.steps)
  {
  }

  lemma {:induction false} ImageAdds(w: World, t: Turn, p: Progress, id: Id, provider: string)
    requires p.unit.log != [] && id in p.unit.work.chat.calls
    ensures var d := ExecuteImage(w, t, p, id, provider).p.unit.work.chat.steps;
            AddsTools(p.unit.work.chat.steps, d) || d == p.unit.log[|p.unit.log| - 1].chat.steps
    ensures ExecuteImage(w, t, p, id, provider).More? ==>
              AddsTools(p.unit.work.chat.steps, ExecuteImage(w, t, p, id, provider).p.unit.work.chat.steps)
  {
    hide Persist, Consume;
    match w.picture(|p.unit.sent|, provider)
    case PolicyRefusal => PersistAdds(p, id, Refused("content_policy"));
    case GenerationFailed => PersistAdds(p, id, Refused("image_generation_failed"));
    case Bytes =>
      var a := p.unit.work.account;
      var purse := Consume(a.purse, Uuid(id), w.cost).0;
      PersistAdds(p.(unit := SetAccount(p.unit, a.(purse := purse, images := a.images + [ImageRow(t.id, id)])),
                     images := p.images + [id]), id, Done("image"));
  }

  lemma {:induction false} BlocksAdd(w: World, t: Turn, p: Progress, uses: seq<Block>)
    requires p.unit.log != [] && forall b :: b in uses ==> b.ToolUse?
    ensures var d := HandleBlocks(w, t, p, uses).p.unit.work.chat.steps;
            AddsTools(p.unit.work.chat.steps, d) || d == p.unit.log[|p.unit.log| - 1].chat.steps
    ensures HandleBlocks(w, t, p, uses).More? ==>
              AddsTools(p.unit.work.chat.steps, HandleBlocks(w, t, p, uses).p.unit.work.chat.steps)
    decreases |uses|
  {
    hide HandleBlock;
    if uses != [] {
      BlockAdds(w, t, p, uses[0]);
      BlockFrame(w, t, p, uses[0]);
      match HandleBlock(w, t, p, uses[0]) {
        case Halt(_, _) =>
        case More(q) => BlocksAdd(w, t, q, uses[1..]);
      }
    }
  }

  // ---- generations ----

  ghost predicate LogTranscribed(w: World, base: seq<Step>, u: Unit) {
    forall i :: 0 <= i < |u.log| ==> Transcribed(w, base, u.sent, u.log[i].chat.steps)
  }

  /** Every reply so far is stored. */
  ghost predicate Speaking(w: World, base: seq<Step>, u: Unit) {
    && LogTranscribed(w, base, u) && Transcribed(w, base, u.sent, u.work.chat.steps)
    && AllSaid(w, u.sent, u.work.chat.steps, |u.sent|)
  }

  /** Every reply but the last is stored in the state committed last. */
  ghost predicate Ended(w: World, base: seq<Step>, u: Unit) {
    && LogTranscribed(w, base, u) && Transcribed(w, base, u.sent, u.work.chat.steps)
    && u.log != [] && AllSaid(w, u.sent, u.log[|u.log| - 1].chat.steps, |u.sent| - 1)
    && AllSaid(w, u.sent, u.work.chat.steps, |u.sent| - 1)
  }

  lemma {:induction false} Sending(w: World, base: seq<Step>, u: Unit)
    requires Speaking(w, base, u)
    ensures Ended(w, base, Commit(u).(sent := u.sent + [u.work.chat]))
  {
    hide Transcribed, AllSaid;
    var v := Commit(u).(sent := u.sent + [u.work.chat]);
    forall i | 0 <= i < |v.log| ensures Transcribed(w, base, v.sent, v.log[i].chat.steps) {
      TranscribedStays(w, base, u.sent, v.sent, v.log[i].chat.steps, v.log[i].chat.steps);
    }
    AllStay(w, u.sent, v.sent, u.work.chat.steps, u.work.chat.steps, |u.sent|);
    TranscribedStays(w, base, u.sent, v.sent, u.work.chat.steps, u.work.chat.steps);
  }

  /** From a sent history on to a state whose steps are `d`, with `log` committed meanwhile. */
  lemma {:induction false} WorkedOn(w: World, base: seq<Step>, u: Unit, d: Store, v: Unit)
    requires Ended(w, base, u) && v.sent == u.sent && (v.log == u.log || v.log == u.log + [d])
        && v.work.chat.steps == d.chat.steps
    requires Transcribed(w, base, u.sent, d.chat.steps) && AllSaid(w, u.sent, d.chat.steps, |u.sent| - 1)
    ensures Ended(w, base, v)
  {
    hide Transcribed, AllSaid;
  }

  lemma {:induction false} CommitSpeaks(w: World, base: seq<Step>, u: Unit)
    requires Speaking(w, base, u)
    ensures Speaking(w, base, Commit(u)) && Ended(w, base, Commit(u))
  {
    hide Transcribed, AllSaid;
    AllFewer(w, u.sent, u.work.chat.steps, |u.sent|);
  }

  lemma {:induction false} FinalizeSpeaks(w: World, t: Turn, base: seq<Step>, q: Progress, content: seq<Block>)
    requires Ended(w, base, q.unit)
    requires var d := Write(q.unit, t.id, Assistant(content, false)).work.chat.steps;
             Transcribed(w, base, q.unit.sent, d) && AllSaid(w, q.unit.sent, d, |q.unit.sent|)
    ensures Finalize(t, q, content).Halt? && Ended(w, base, Finalize(t, q, content).p.unit)
  {
    hide Transcribed, AllSaid, TextOf, Consume;
    var d := Write(q.unit, t.id, Assistant(content, false));
    AllFewer(w, d.sent, d.work.chat.steps, |d.sent|);
  }

  lemma {:induction false} ToolUseSpeaks(w: World, t: Turn, base: seq<Step>, q: Progress, content: seq<Block>)
    requires Ended(w, base, q.unit)
    requires var d := Write(q.unit, t.id, Assistant(content, false)).work.chat.steps;
             Transcribed(w, base, q.unit.sent, d) && AllSaid(w, q.unit.sent, d, |q.unit.sent|)
    ensures match HandleToolUse(w, t, q, content)
            case More(r) => Speaking(w, base, r.unit)
            case Halt(r, _) => Ended(w, base, r.unit)
  {
    hide HandleBlocks, Transcribed, AllSaid;
    var x := q.(unit := Write(q.unit, t.id, Assistant(content, false)), clients := []);
    var uses := ToolUses(content);
    var d := x.unit.work.chat.steps;
    BlocksAdd(w, t, x, uses);
    BlocksFrame(w, t, x, uses);
    var e := HandleBlocks(w, t, x, uses).p.unit.work.chat.steps;
    if AddsTools(d, e) {
      TranscribedStays(w, base, x.unit.sent, x.unit.sent, d, e);
      AllStay(w, x.unit.sent, x.unit.sent, d, e, |x.unit.sent|);
      AllFewer(w, x.unit.sent, e, |x.unit.sent|);
    }
  }

  lemma {:induction false} RoundSpeaks(w: World, t: Turn, base: seq<Step>, p: Progress)
    requires Speaking(w, base, p.unit)
    ensures match Round(w, t, p)
            case More(q) => Speaking(w, base, q.unit)
            case Halt(q, _) => Ended(w, base, q.unit)
  {
    hide HandleToolUse, Finalize, Build, ToolUses, TextOf, Transcribed, AllSaid;
    Sending(w, base, p.unit);
    var c := p.unit.work.chat;
    var u := Commit(p.unit);
    var q := p.(unit := u.(sent := u.sent + [c]));
    match w.model(|u.sent|, Build(c.steps))
    case Unavailable =>
    case AuthRejected =>
    case Reply(stop, content) =>
      ReplyAdded(w, base, p.unit.sent, c, t.id);
      var d := Write(q.unit, t.id, Assistant(content, stop.MaxTokens?));
      AllFewer(w, q.unit.sent, d.work.chat.steps, |q.unit.sent|);
      if stop.MaxTokens? {
        WorkedOn(w, base, q.unit, d.work, Commit(d));
      } else if stop.ToolUseStop? && ToolUses(content) != [] {
        ToolUseSpeaks(w, t, base, q, content);
        if HandleToolUse(w, t, q, content).More? { CommitSpeaks(w, base, HandleToolUse(w, t, q, content).p.unit); }
      } else {
        FinalizeSpeaks(w, t, base, q, content);
      }
  }

  lemma {:induction false} AllFewer(w: World, sent: seq<Chat>, steps: seq<Step>, n: int)
    requires AllSaid(w, sent, steps, n)
    ensures AllSaid(w, sent, steps, n - 1)
  {
  }

  lemma {:induction false} LoopSpeaks(w: World, t: Turn, base: seq<Step>, p: Progress, n: nat)
    requires Speaking(w, base, p.unit)
    ensures Ended(w, base, Loop(w, t, p, n).0.unit)
    decreases n
  {
    hide Round, Speaking, Ended;
    if n == 0 {
      CommitSpeaks(w, base, p.unit);
    } else {
      RoundSpeaks(w, t, base, p);
      match Round(w, t, p) {
        case Halt(_, _) =>
        case More(q) => LoopSpeaks(w, t, base, q, n - 1);
      }
    }
  }

  /** What a generation has committed in the end. */
  ghost predicate Told(w: World, base: seq<Step>, log: seq<Store>, sent: seq<Chat>) {
    && log != []
    && (forall i :: 0 <= i < |log| ==> Transcribed(w, base, sent, log[i].chat.steps))
    && AllSaid(w, sent, log[|log| - 1].chat.steps, |sent| - 1)
    && (sent != [] ==> sent[0].steps == base)
  }

  lemma {:induction false} StartSpeaks(w: World, u: Unit)
    requires u.log == [] && u.sent == []
    ensures Speaking(w, u.work.chat.steps, u) && Ended(w, u.work.chat.steps, Commit(u))
  {
    assert Speaking(w, u.work.chat.steps, u);
    CommitSpeaks(w, u.work.chat.steps, u);
  }

  lemma {:induction false} ContinueTells(w: World, turn: Id, mode: Policy.Mode, hasProject: bool, u: Unit)
    requires u.log == [] && u.sent == []
    ensures var (p, out) := Finish(Continue(w, turn, mode, hasProject, u));
            Told(w, u.work.chat.steps, p.unit.log, p.unit.sent)
  {
    hide Loop, Speaking, Ended;
    var base := u.work.chat.steps;
    var t := Turn(turn, mode, Policy.BillingPlan(mode, u.work.account.PolicyState()), hasProject);
    var p := Progress(u, [], [], []);
    StartSpeaks(w, u);
    LoopSpeaks(w, t, base, p, w.rounds + 1);
    LoopFirst(w, t, p, w.rounds + 1);
    EndedTells(w, base, Commit(u));
    EndedTells(w, base, Loop(w, t, p, w.rounds + 1).0.unit);
    if Policy.Evaluate(u.work.account.PolicyState(), mode).Block? { BlockedTells(w, u); }
  }

  lemma {:induction false} BlockedTells(w: World, u: Unit)
    requires u.log == [] && u.sent == []
    ensures Told(w, u.work.chat.steps, Commit(u).log, []) && Told(w, u.work.chat.steps, Commit(Commit(u)).log, [])
  {
  }

  lemma {:induction false} EndedTells(w: World, base: seq<Step>, u: Unit)
    requires Ended(w, base, u) && (u.sent != [] ==> u.sent[0].steps == base)
    ensures Told(w, base, u.log, u.sent) && Told(w, base, Commit(u).log, u.sent)
  {
    hide Transcribed, AllSaid;
  }

  /** In every state that a request commits, what stands behind the history it began with is what the model
      said and the steps of its tools, in the order in which it was said; the state committed last holds every
      reply but perhaps the last one. */
  lemma {:induction false} RepliesStoredVerbatim(w: World, db: Database, r: Request)
    requires BaseOf(w, db, r).Some?
    ensures var trace := Exec(w, db, r).1; Told(w, BaseOf(w, db, r).value.store.chat.steps, trace.log, trace.sent)
  {
    hide Exec, BaseOf, Continue, Finish, Told;
    var b := BaseOf(w, db, r).value;
    if r.TemporaryRun? {
      TemporaryStart(w, db, r);
      ContinueTells(w, b.turn, r.mode, false, Unit(b.store, [], b.next, [], true));
    } else {
      Places(w, db, r);
      GenerationIs(w, db, r);
      var s := Place(db, r).1;
      ContinueTells(w, b.turn, s.mode, s.hasProject, Opening(b));
    }
  }

  lemma {:induction false} Places(w: World, db: Database, r: Request)
    requires BaseOf(w, db, r).Some? && !r.TemporaryRun?
    ensures r.Run? || (r.ToolResult? && r.session in db.sessions)
  {
  }

  // ---- what a generation begins with ----

  /** A message goes behind the history of its session as it is; a temporary chat is seeded with its
      transcript, entry by entry; and an edit takes the place of the message and all that followed it. */
  lemma {:induction false} RunBeginsWith(w: World, db: Database, r: Request)
    requires (r.Run? || r.TemporaryRun?) && BaseOf(w, db, r).Some?
    ensures var b := BaseOf(w, db, r).value;
            var said := Step(b.turn, User(r.request.content, r.request.actionPrompt));
            && b.turn >= db.next
            && |b.store.chat.steps| > 0 && b.store.chat.steps[|b.store.chat.steps| - 1] == said
            && var before := b.store.chat.steps[..|b.store.chat.steps| - 1];
               if r.TemporaryRun?
               then |before| == |r.transcript| && forall i :: 0 <= i < |before| ==> before[i].body == r.transcript[i]
               else
                 var c := Target(db, r).1.chat;
                 if r.request.edit.None? then before == c.steps && b.store.chat.calls == c.calls
                 else
                   && before <= c.steps && |before| < |c.steps|
                   && c.steps[|before|].turn == r.request.edit.value && c.steps[|before|].body.User?
                   && forall i :: 0 <= i < |before| ==>
                       !(before[i].turn == r.request.edit.value && before[i].body.User?)
  {
    if r.Run? && r.request.edit.Some? {
      var c, turn := Target(db, r).1.chat, r.request.edit.value;
      var at := FirstIndex(c.steps, 0, IsUser(turn)).value;
      assert c.steps[..at] + [Step(BaseOf(w, db, r).value.turn, User(r.request.content, r.request.actionPrompt))]
          == BaseOf(w, db, r).value.store.chat.steps;
      forall i | 0 <= i < at ensures !(c.steps[i].turn == turn && c.steps[i].body.User?) {
        assert !IsUser(turn)(c.steps[i]);
      }
      assert IsUser(turn)(c.steps[at]);
    }
  }

  // ---- results ----

  /** The `i`-th item is the first for its call, which was waiting. */
  predicate Counts(c: Chat, items: seq<ResultItem>, i: int)
    requires 0 <= i < |items|
  {
    && items[i].call in c.calls && c.calls[items[i].call].status.Pending?
    && forall j :: 0 <= j < i ==> items[j].call != items[i].call
  }

  /** The step in which an item is stored. */
  function ResultStep(c: Chat, item: ResultItem): Step
    requires item.call in c.calls
  {
    var k := c.calls[item.call];
    Step(k.turn, Tool(item.call, k.provider, k.tool, item.result, item.error))
  }

  /** The steps of the items that count, in their order. */
  function ResultSteps(c: Chat, items: seq<ResultItem>): seq<Step> {
    if items == [] then []
    else
      var n := |items| - 1;
      ResultSteps(c, items[..n]) + if Counts(c, items, n) then [ResultStep(c, items[n])] else []
  }

  /** Results are stored as they came: one tool step, with exactly the item's result and error, for each
      item that is the first for a waiting call, in the order of the batch, and no other step. */
  lemma {:induction false} ResultsStoredVerbatim(c: Chat, items: seq<ResultItem>)
    ensures ApplyResults(c, items).steps == c.steps + ResultSteps(c, items)
  {
    if items != [] {
      var n := |items| - 1;
      var (before, x) := (items[..n], items[n]);
      ResultsStoredVerbatim(c, before);
      assert before + [x] == items;
      ApplySplits(c, before, [x]);
      ApplySettles(c, before, x.call);
      var d := ApplyResults(c, before);
      assert ApplyResults(d, [x]) == if x.call in d.calls then Answer(d, x.call, x.result, x.error) else d
        by { OneItem(d, x); }
      assert FirstFor(before, x.call).None? <==> forall j :: 0 <= j < n ==> items[j].call != x.call;
    }
  }

  lemma {:induction false} OneItem(c: Chat, x: ResultItem)
    ensures ApplyResults(c, [x]) == if x.call in c.calls then Answer(c, x.call, x.result, x.error) else c
  {
    assert [x][1..] == [];
  }
}
