/** What becomes of the tool calls of a generation: the row, the step and the money of each call are those
of what its handler or the image generation brought, and of nothing else. */
module ToolOutcomes {
  import opened Wallet
  import opened Records
  import opened Repository
  import opened Engine
  import opened Money
  import opened History
  import opened Growth
  import opened TurnSafety
  import opened Runs
  import opened Responses
  import opened Replies
  import Policy

  /** How many replies are among these steps. */
  function ReplyCount(steps: seq<Step>): nat {
    if steps == [] then 0
    else ReplyCount(steps[..|steps| - 1]) + if steps[|steps| - 1].body.Assistant? then 1 else 0
  }

  /** What is stored as the arguments of a call: what validation made of the block's input, or that input
      as it is, but only for a quiz that failed it. */
  predicate StoredArgs(w: World, block: Block, args: string)
    requires block.ToolUse?
  {
    match w.validate(block.name, block.input)
    case Some(valid) => args == valid
    case None => w.kind(block.name).Quiz? && args == block.input
  }

  predicate AskedBy(w: World, block: Block, k: Call) {
    block.ToolUse? && block.id == k.provider && block.name == k.tool && StoredArgs(w, block, k.args)
  }

  /** Step `j`, a reply of the generation that starts from `b`, asked for the call. */
  ghost predicate AskedAt(w: World, hasProject: bool, b: Base, c: Chat, id: Id, j: int)
    requires id in c.calls
  {
    && |b.store.chat.steps| <= j < |c.steps| && c.steps[j].turn == b.turn && c.steps[j].body.Assistant?
    && (exists block :: block in c.steps[j].body.content && AskedBy(w, block, c.calls[id]))
    && c.calls[id].turn == b.turn
    && (w.kind(c.calls[id].tool).Site? ==> hasProject)
  }

  /** The call is closed with exactly this result and error, in its row and in a tool step. */
  ghost predicate ClosedWith(c: Chat, id: Id, result: Option<string>, error: Option<string>)
    requires id in c.calls
  {
    var k := c.calls[id];
    && k.status == (if error.Some? then Errored else Completed)
    && k.result == (if result.Some? then result else error)
    && Step(k.turn, Tool(id, k.provider, k.tool, result, error)) in c.steps
  }

  /** No image and no debit of this generation belong to the call. */
  ghost predicate CostNothing(b: Base, a: Account, id: Id) {
    && (forall i :: |b.store.account.images| <= i < |a.images| ==> a.images[i].call != id)
    && (forall i :: |b.store.account.purse.ledger| <= i < |a.purse.ledger| ==> a.purse.ledger[i].key != Uuid(id))
  }

  /** What the call must show if it was asked for by the `n`-th reply. */
  ghost predicate Shows(w: World, b: Base, s: Store, id: Id, n: nat)
    requires id in s.chat.calls
  {
    var k := s.chat.calls[id];
    if k.status.Pending? then w.kind(k.tool).Client? && CostNothing(b, s.account, id)
    else
      match w.kind(k.tool)
      case Client => false
      case Image =>
        (match w.picture(n, k.provider)
         case Bytes =>
           && ClosedWith(s.chat, id, Some("image"), None)
           && ImageRow(b.turn, id) in s.account.images
           && Row(Uuid(id), Debit, w.cost) in s.account.purse.ledger
         case PolicyRefusal =>
           ClosedWith(s.chat, id, None, Some("content_policy")) && CostNothing(b, s.account, id)
         case GenerationFailed =>
           ClosedWith(s.chat, id, None, Some("image_generation_failed")) && CostNothing(b, s.account, id))
      case _ =>
        && CostNothing(b, s.account, id)
        && match w.execute(id, k.tool, k.args)
           case Done(result) => ClosedWith(s.chat, id, Some(result), None)
           case Refused(code) => ClosedWith(s.chat, id, None, Some(code))
  }

  ghost predicate Called(w: World, hasProject: bool, b: Base, s: Store, id: Id)
    requires id in s.chat.calls
  {
    exists j :: AskedAt(w, hasProject, b, s.chat, id, j)
             && Shows(w, b, s, id, ReplyCount(s.chat.steps[|b.store.chat.steps|..j + 1]))
  }

  /** A call of this generation for an image, and closed. */
  ghost predicate ImageCall(w: World, b: Base, s: Store, id: Id) {
    && id in s.chat.calls && id !in b.store.chat.calls
    && w.kind(s.chat.calls[id].tool).Image? && !s.chat.calls[id].status.Pending?
  }

  /** A debit of this generation: for an image call at its price, or for the final step at one credit. */
  ghost predicate ChargedFor(w: World, b: Base, s: Store, row: Row) {
    || row == Row(Uuid(b.turn), Debit, 1)
    || (row.key.Uuid? && row == Row(Uuid(row.key.id), Debit, w.cost) && ImageCall(w, b, s, row.key.id))
  }

  /** Every call, image row and debit that the generation has added is accounted for. */
  ghost predicate Tracks(w: World, hasProject: bool, b: Base, s: Store) {
    && |b.store.chat.steps| <= |s.chat.steps|
    && b.store.account.images <= s.account.images && b.store.account.purse.ledger <= s.account.purse.ledger
    && (forall id :: id in s.chat.calls && id !in b.store.chat.calls ==> id >= b.next && Called(w, hasProject, b, s, id))
    && (forall i :: |b.store.account.images| <= i < |s.account.images| ==>
          s.account.images[i].turn == b.turn && ImageCall(w, b, s, s.account.images[i].call))
    && (forall i :: |b.store.account.purse.ledger| <= i < |s.account.purse.ledger| ==>
          ChargedFor(w, b, s, s.account.purse.ledger[i]))
  }

  ghost predicate LogTracks(w: World, hasProject: bool, b: Base, log: seq<Store>) {
    forall i :: 0 <= i < |log| ==> Tracks(w, hasProject, b, log[i])
  }

  // ---- later states ----

  /** `t` adds steps, image rows and debits to `s`, none of the latter for this call. */
  ghost predicate Beyond(b: Base, s: Store, t: Store, id: Id) {
    && s.chat.steps <= t.chat.steps && s.account.images <= t.account.images
    && s.account.purse.ledger <= t.account.purse.ledger
    && (id in s.chat.calls ==> id in t.chat.calls && t.chat.calls[id] == s.chat.calls[id])
    && (forall i :: |s.account.images| <= i < |t.account.images| ==> t.account.images[i].call != id)
    && (forall i :: |s.account.purse.ledger| <= i < |t.account.purse.ledger| ==> t.account.purse.ledger[i].key != Uuid(id))
  }

  lemma {:induction false} CostStays(b: Base, s: Store, t: Store, id: Id)
    requires Beyond(b, s, t, id) && CostNothing(b, s.account, id)
    ensures CostNothing(b, t.account, id)
  {
  }

  lemma {:induction false} ShowsStays(w: World, b: Base, s: Store, t: Store, id: Id, n: nat)
    requires id in s.chat.calls && Beyond(b, s, t, id) && Shows(w, b, s, id, n)
    ensures Shows(w, b, t, id, n)
  {
    hide CostNothing;
    if CostNothing(b, s.account, id) { CostStays(b, s, t, id); }
  }

  lemma {:induction false} CalledStays(w: World, hasProject: bool, b: Base, s: Store, t: Store, id: Id)
    requires id in s.chat.calls && Beyond(b, s, t, id) && Called(w, hasProject, b, s, id)
    ensures Called(w, hasProject, b, t, id)
  {
    hide Shows;
    var from := |b.store.chat.steps|;
    var j :| AskedAt(w, hasProject, b, s.chat, id, j) && Shows(w, b, s, id, ReplyCount(s.chat.steps[from..j + 1]));
    assert t.chat.steps[from..j + 1] == s.chat.steps[from..j + 1];
    ShowsStays(w, b, s, t, id, ReplyCount(s.chat.steps[from..j + 1]));
    assert AskedAt(w, hasProject, b, t.chat, id, j);
  }

  /** One call more: it is accounted for, and every new row is its own. */
  lemma {:induction false} TracksCall(w: World, hasProject: bool, b: Base, s: Store, t: Store, id: Id)
    requires Tracks(w, hasProject, b, s) && id !in s.chat.calls && id >= b.next && id !in b.store.chat.calls
        && b.turn < b.next
    requires id in t.chat.calls && t.chat.calls == s.chat.calls[id := t.chat.calls[id]] && s.chat.steps <= t.chat.steps
    requires s.account.images <= t.account.images && s.account.purse.ledger <= t.account.purse.ledger
    requires forall i :: |s.account.images| <= i < |t.account.images| ==>
               t.account.images[i] == ImageRow(b.turn, id) && ImageCall(w, b, t, id)
    requires forall i :: |s.account.purse.ledger| <= i < |t.account.purse.ledger| ==>
               t.account.purse.ledger[i] == Row(Uuid(id), Debit, w.cost) && ImageCall(w, b, t, id)
    requires Called(w, hasProject, b, t, id)
    ensures Tracks(w, hasProject, b, t)
  {
    hide Called;
    forall k | k in t.chat.calls && k !in b.store.chat.calls ensures k >= b.next && Called(w, hasProject, b, t, k) {
      if k != id { CalledStays(w, hasProject, b, s, t, k); }
    }
    RowsStay(w, hasProject, b, s, t, id);
  }

  lemma {:induction false} RowsStay(w: World, hasProject: bool, b: Base, s: Store, t: Store, id: Id)
    requires Tracks(w, hasProject, b, s)
      && (forall k :: k in s.chat.calls ==> k in t.chat.calls && t.chat.calls[k] == s.chat.calls[k])
    requires s.account.images <= t.account.images && s.account.purse.ledger <= t.account.purse.ledger
    requires forall i :: |s.account.images| <= i < |t.account.images| ==>
               t.account.images[i] == ImageRow(b.turn, id) && ImageCall(w, b, t, id)
    requires forall i :: |s.account.purse.ledger| <= i < |t.account.purse.ledger| ==>
        ChargedFor(w, b, t, t.account.purse.ledger[i])
    ensures forall i :: |b.store.account.images| <= i < |t.account.images| ==>
              t.account.images[i].turn == b.turn && ImageCall(w, b, t, t.account.images[i].call)
    ensures forall i :: |b.store.account.purse.ledger| <= i < |t.account.purse.ledger| ==>
              ChargedFor(w, b, t, t.account.purse.ledger[i])
  {
    hide Called;
    forall i | |b.store.account.images| <= i < |t.account.images|
      ensures t.account.images[i].turn == b.turn && ImageCall(w, b, t, t.account.images[i].call)
    {
      if i < |s.account.images| { assert t.account.images[i] == s.account.images[i]; }
    }
    forall i | |b.store.account.purse.ledger| <= i < |t.account.purse.ledger|
      ensures ChargedFor(w, b, t, t.account.purse.ledger[i])
    {
      if i < |s.account.purse.ledger| { assert t.account.purse.ledger[i] == s.account.purse.ledger[i]; }
    }
  }

  /** No call more: a reply was stored, or the final step was paid. */
  lemma {:induction false} TracksOn(w: World, hasProject: bool, b: Base, s: Store, t: Store)
    requires Tracks(w, hasProject, b, s) && t.chat.calls == s.chat.calls && s.chat.steps <= t.chat.steps
        && b.turn < b.next
    requires t.account.images == s.account.images && s.account.purse.ledger <= t.account.purse.ledger
    requires forall i :: |s.account.purse.ledger| <= i < |t.account.purse.ledger| ==>
               t.account.purse.ledger[i] == Row(Uuid(b.turn), Debit, 1)
    ensures Tracks(w, hasProject, b, t)
  {
    hide Called;
    forall k | k in t.chat.calls && k !in b.store.chat.calls ensures k >= b.next && Called(w, hasProject, b, t, k) {
      CalledStays(w, hasProject, b, s, t, k);
    }
    RowsStay(w, hasProject, b, s, t, 0);
  }

  // ---- one block ----

  /** The ids in the working rows are older than the next fresh one, and the turn is older than all. */
  ghost predicate Ids(b: Base, u: Unit) {
    && b.turn < b.next <= u.next && b.turn !in b.store.chat.calls
    && (forall id :: id in b.store.chat.calls ==> id < b.next)
    && (forall id :: id in u.work.chat.calls ==> id < u.next)
    && (forall k: nat :: Uuid(k) in Keys(u.work.account.purse.ledger) ==> k < u.next)
  }

  /** Step `j` is the reply being handled, the one of the last model call. */
  ghost predicate Handling(b: Base, u: Unit, j: int) {
    && |b.store.chat.steps| <= j < |u.work.chat.steps|
    && u.work.chat.steps[j].turn == b.turn && u.work.chat.steps[j].body.Assistant?
    && |u.sent| == ReplyCount(u.work.chat.steps[|b.store.chat.steps|..j + 1])
  }

  ghost predicate FlowTracks(w: World, hasProject: bool, b: Base, f: Flow) {
    && LogTracks(w, hasProject, b, f.p.unit.log)
    && match f
       case More(q) => Tracks(w, hasProject, b, q.unit.work) && Ids(b, q.unit)
       case Halt(q, out) => Kept(out, q.unit.temporary) ==> Tracks(w, hasProject, b, q.unit.work)
  }

  /** What is working when a request stops is committed, unless an exception rolls it back; the memory of a
      temporary chat keeps a call whose debit was refused. */
  predicate Kept(out: Outcome, temporary: bool) {
    !out.Raised? && !(temporary && out == Blocked(Policy.ImageCreditsEmpty))
  }

  /** The rows of a call that was opened and closed at once. */
  lemma {:induction false} OpenedClosed(c: Chat, id: Id, turn: Id, tool: string, args: string, provider: string,
                                        result: Option<string>, error: Option<string>)
    requires id !in c.calls
    ensures var d := Answer(CreateCall(c, id, turn, tool, args, provider), id, result, error);
            && d.steps == c.steps + [Step(turn, Tool(id, provider, tool, result, error))]
            && id in d.calls && d.calls == c.calls[id := d.calls[id]]
            && d.calls[id].turn == turn && d.calls[id].tool == tool && d.calls[id].args == args
            && d.calls[id].provider == provider && !d.calls[id].status.Pending?
            && ClosedWith(d, id, result, error)
  {
  }

  /** The asking step is still there, and asks for the new call. */
  lemma {:induction false} AsksStill(w: World, t: Turn, b: Base, c: Chat, d: Chat, id: Id, block: Block, j: int)
    requires |b.store.chat.steps| <= j < |c.steps| && c.steps <= d.steps && id in d.calls
    requires c.steps[j].turn == b.turn && c.steps[j].body.Assistant? && block in c.steps[j].body.content
    requires block.ToolUse? && AskedBy(w, block, d.calls[id]) && d.calls[id].turn == b.turn
    requires w.kind(block.name).Site? ==> t.hasProject
    ensures AskedAt(w, t.hasProject, b, d, id, j)
    ensures d.steps[|b.store.chat.steps|..j + 1] == c.steps[|b.store.chat.steps|..j + 1]
  {
    assert d.steps[j] == c.steps[j];
  }

  lemma {:induction false} CostsNothing(b: Base, s: Store, t: Store, id: Id)
    requires b.store.account.images <= s.account.images && b.store.account.purse.ledger <= s.account.purse.ledger
    requires t.account.images == s.account.images && t.account.purse.ledger == s.account.purse.ledger
    requires forall i :: |b.store.account.images| <= i < |s.account.images| ==> s.account.images[i].call != id
    requires Uuid(id) !in Keys(s.account.purse.ledger)
    ensures CostNothing(b, t.account, id)
  {
    hide Keys;
    forall i | |b.store.account.purse.ledger| <= i < |t.account.purse.ledger|
      ensures t.account.purse.ledger[i].key != Uuid(id)
    {
      KeysOfMember(t.account.purse.ledger, t.account.purse.ledger[i]);
    }
  }

  /** A call that is new knows no image row yet. */
  lemma {:induction false} NoRowYet(w: World, hasProject: bool, b: Base, u: Unit)
    requires Tracks(w, hasProject, b, u.work) && Ids(b, u)
    ensures u.next !in u.work.chat.calls && u.next !in b.store.chat.calls
        && Uuid(u.next) !in Keys(u.work.account.purse.ledger)
    ensures forall i :: |b.store.account.images| <= i < |u.work.account.images| ==>
        u.work.account.images[i].call != u.next
  {
    hide Called, ChargedFor, Keys;
  }

  /** A block that costs nothing: client-side, server-side, or an image that was not made. */
  lemma {:induction false} FreeTracks(w: World, t: Turn, b: Base, p: Progress, block: Block, args: string, d: Chat,
                                      j: int)
    requires Tracks(w, t.hasProject, b, p.unit.work) && Ids(b, p.unit) && Handling(b, p.unit, j) && t.id == b.turn
    requires block.ToolUse? && block in p.unit.work.chat.steps[j].body.content && StoredArgs(w, block, args)
    requires w.kind(block.name).Site? ==> t.hasProject
    requires var (c, id) := (p.unit.work.chat, p.unit.next);
             && c.steps <= d.steps && id in d.calls && d.calls == c.calls[id := d.calls[id]]
             && d.calls[id].turn == t.id && d.calls[id].tool == block.name && d.calls[id].args == args
             && d.calls[id].provider == block.id
    requires var k := d.calls[p.unit.next];
             match w.kind(block.name)
             case Client => k.status.Pending?
             case Image =>
               !k.status.Pending?
               && (match w.picture(|p.unit.sent|, block.id)
                   case Bytes => false
                   case PolicyRefusal => ClosedWith(d, p.unit.next, None, Some("content_policy"))
                   case GenerationFailed => ClosedWith(d, p.unit.next, None, Some("image_generation_failed")))
             case _ =>
               !k.status.Pending?
               && match w.execute(p.unit.next, block.name, args)
                  case Done(result) => ClosedWith(d, p.unit.next, Some(result), None)
                  case Refused(code) => ClosedWith(d, p.unit.next, None, Some(code))
    ensures var a := p.unit.work.account.(initiated := p.unit.work.account.initiated[p.unit.next := t.id]);
            Tracks(w, t.hasProject, b, Store(d, a))
  {
    hide ClosedWith, Keys, CostNothing, Tracks, StoredArgs;
    var id := p.unit.next;
    var s := Store(d, p.unit.work.account.(initiated := p.unit.work.account.initiated[id := t.id]));
    NoRowYet(w, t.hasProject, b, p.unit);
    TracksPrefix(w, t.hasProject, b, p.unit.work);
    CostsNothing(b, p.unit.work, s, id);
    AsksStill(w, t, b, p.unit.work.chat, d, id, block, j);
    assert Shows(w, b, s, id, |p.unit.sent|);
    assert Called(w, t.hasProject, b, s, id);
    TracksCall(w, t.hasProject, b, p.unit.work, s, id);
  }

  lemma {:induction false} TracksPrefix(w: World, hasProject: bool, b: Base, s: Store)
    requires Tracks(w, hasProject, b, s)
    ensures b.store.account.images <= s.account.images && b.store.account.purse.ledger <= s.account.purse.ledger
  {
  }

  /** A block that stored an image. */
  lemma {:induction false} PaidTracks(w: World, t: Turn, b: Base, p: Progress, block: Block, args: string, s: Store,
                                      j: int)
    requires Tracks(w, t.hasProject, b, p.unit.work) && Ids(b, p.unit) && Handling(b, p.unit, j) && t.id == b.turn
    requires block.ToolUse? && block in p.unit.work.chat.steps[j].body.content && StoredArgs(w, block, args)
    requires w.kind(block.name).Image? && w.picture(|p.unit.sent|, block.id).Bytes?
    requires var (c, d, id) := (p.unit.work.chat, s.chat, p.unit.next);
             && c.steps <= d.steps && id in d.calls && d.calls == c.calls[id := d.calls[id]]
             && d.calls[id].turn == t.id && d.calls[id].tool == block.name && d.calls[id].args == args
             && d.calls[id].provider == block.id && !d.calls[id].status.Pending?
             && ClosedWith(d, id, Some("image"), None)
    requires s.account.images == p.unit.work.account.images + [ImageRow(t.id, p.unit.next)]
    requires s.account.purse.ledger == p.unit.work.account.purse.ledger + [Row(Uuid(p.unit.next), Debit, w.cost)]
    ensures Tracks(w, t.hasProject, b, s)
  {
    hide ClosedWith, Keys, CostNothing, Tracks, StoredArgs;
    var id := p.unit.next;
    NoRowYet(w, t.hasProject, b, p.unit);
    AsksStill(w, t, b, p.unit.work.chat, s.chat, id, block, j);
    assert s.account.images[|p.unit.work.account.images|] == ImageRow(b.turn, id);
    assert s.account.purse.ledger[|p.unit.work.account.purse.ledger|] == Row(Uuid(id), Debit, w.cost);
    assert Shows(w, b, s, id, |p.unit.sent|);
    assert Called(w, t.hasProject, b, s, id);
    TracksCall(w, t.hasProject, b, p.unit.work, s, id);
  }

  /** An image call, opened by `p` as `q`. */
  lemma {:induction false} ImageTracks(w: World, t: Turn, b: Base, p: Progress, block: Block, args: string, j: int)
    requires Tracks(w, t.hasProject, b, p.unit.work) && LogTracks(w, t.hasProject, b, p.unit.log) && p.unit.log != []
    requires Ids(b, p.unit) && Handling(b, p.unit, j) && t.id == b.turn
    requires block.ToolUse? && block in p.unit.work.chat.steps[j].body.content && StoredArgs(w, block, args)
    requires w.kind(block.name).Image?
    ensures var q := p.(unit := OpenCall(p.unit, t.id, block.name, args, block.id));
            FlowTracks(w, t.hasProject, b, ExecuteImage(w, t, q, p.unit.next, block.id))
  {
    hide Tracks, StoredArgs, Keys, Find, ClosedWith, Handling, Answer;
    var c, id := p.unit.work.chat, p.unit.next;
    var q := p.(unit := OpenCall(p.unit, t.id, block.name, args, block.id));
    NoRowYet(w, t.hasProject, b, p.unit);
    match w.picture(|p.unit.sent|, block.id)
    case PolicyRefusal =>
      OpenedClosed(c, id, t.id, block.name, args, block.id, None, Some("content_policy"));
      FreeTracks(w, t, b, p, block, args, Answer(q.unit.work.chat, id, None, Some("content_policy")), j);
    case GenerationFailed =>
      OpenedClosed(c, id, t.id, block.name, args, block.id, None, Some("image_generation_failed"));
      FreeTracks(w, t, b, p, block, args, Answer(q.unit.work.chat, id, None, Some("image_generation_failed")), j);
    case Bytes =>
      var a := q.unit.work.account;
      var (purse, v) := Consume(a.purse, Uuid(id), w.cost);
      if v.Insufficient? {
        assert Tracks(w, t.hasProject, b, p.unit.log[|p.unit.log| - 1]);
      } else if !v.Conflict? {
        OpenedClosed(c, id, t.id, block.name, args, block.id, Some("image"), None);
        var s := Store(Answer(q.unit.work.chat, id, Some("image"), None),
                       a.(purse := purse, images := a.images + [ImageRow(t.id, id)]));
        PaidTracks(w, t, b, p, block, args, s, j);
        KeysConcat(p.unit.work.account.purse.ledger, [Row(Uuid(id), Debit, w.cost)]);
        OneKey(Row(Uuid(id), Debit, w.cost));
      }
  }

  lemma {:induction false} OneKey(row: Row)
    ensures Keys([row]) == {row.key}
  {
    assert [row][..0] == [];
  }

  /** A tool that runs on the server, opened and persisted. */
  lemma {:induction false} ServerTracks(w: World, t: Turn, b: Base, p: Progress, block: Block, args: string, j: int)
    requires Tracks(w, t.hasProject, b, p.unit.work) && Ids(b, p.unit) && Handling(b, p.unit, j) && t.id == b.turn
    requires block.ToolUse? && block in p.unit.work.chat.steps[j].body.content && StoredArgs(w, block, args)
    requires !w.kind(block.name).Image? && !w.kind(block.name).Client? && (w.kind(block.name).Site? ==> t.hasProject)
    ensures var q := p.(unit := OpenCall(p.unit, t.id, block.name, args, block.id));
            Tracks(w, t.hasProject, b, Persist(q, p.unit.next, w.execute(p.unit.next, block.name, args)).unit.work)
  {
    hide Tracks, StoredArgs, Keys, ClosedWith, Handling, Answer;
    var c, id := p.unit.work.chat, p.unit.next;
    var q := p.(unit := OpenCall(p.unit, t.id, block.name, args, block.id));
    NoRowYet(w, t.hasProject, b, p.unit);
    var x := w.execute(id, block.name, args);
    var result := if x.Done? then Some(x.result) else None;
    var error := if x.Refused? then Some(x.code) else None;
    OpenedClosed(c, id, t.id, block.name, args, block.id, result, error);
    FreeTracks(w, t, b, p, block, args, Answer(q.unit.work.chat, id, result, error), j);
  }

  lemma {:induction false} BlockTracks(w: World, t: Turn, b: Base, p: Progress, block: Block, j: int)
    requires Tracks(w, t.hasProject, b, p.unit.work) && LogTracks(w, t.hasProject, b, p.unit.log) && p.unit.log != []
    requires Ids(b, p.unit) && Handling(b, p.unit, j) && t.id == b.turn
    requires block.ToolUse? && block in p.unit.work.chat.steps[j].body.content
    ensures FlowTracks(w, t.hasProject, b, HandleBlock(w, t, p, block))
    ensures HandleBlock(w, t, p, block).More? ==>
              var q := HandleBlock(w, t, p, block).p.unit;
              Handling(b, q, j) && q.work.chat.steps[j] == p.unit.work.chat.steps[j]
  {
    hide Tracks, Keys, ClosedWith, ExecuteImage, Answer;
    BlockHands(w, t, p, block);
    BlockFrame(w, t, p, block);
    var checked := w.validate(block.name, block.input);
    var kind := w.kind(block.name);
    var args := if checked.Some? then checked.value else block.input;
    var c, id := p.unit.work.chat, p.unit.next;
    var q := p.(unit := OpenCall(p.unit, t.id, block.name, args, block.id));
    if HandleBlock(w, t, p, block).More? {
      var d := HandleBlock(w, t, p, block).p.unit.work.chat;
      assert d.steps[|b.store.chat.steps|..j + 1] == c.steps[|b.store.chat.steps|..j + 1];
    }
    NoRowYet(w, t.hasProject, b, p.unit);
    hide Handling, Adds, Below;
    if (kind.Site? && !t.hasProject) || (checked.None? && !kind.Quiz?) {
    } else if kind.Image? {
      assert StoredArgs(w, block, args);
      ImageTracks(w, t, b, p, block, args, j);
    } else if kind.Client? {
      if !p.unit.temporary { FreeTracks(w, t, b, p, block, args, q.unit.work.chat, j); }
    } else {
      ServerTracks(w, t, b, p, block, args, j);
    }
  }

  lemma {:induction false} BlocksTrack(w: World, t: Turn, b: Base, p: Progress, uses: seq<Block>, j: int)
    requires Tracks(w, t.hasProject, b, p.unit.work) && LogTracks(w, t.hasProject, b, p.unit.log) && p.unit.log != []
    requires Ids(b, p.unit) && Handling(b, p.unit, j) && t.id == b.turn
    requires forall x :: x in uses ==> x.ToolUse? && x in p.unit.work.chat.steps[j].body.content
    ensures FlowTracks(w, t.hasProject, b, HandleBlocks(w, t, p, uses))
    decreases |uses|
  {
    hide HandleBlock, Tracks, LogTracks, Ids, Handling;
    if uses != [] {
      assert 0 <= j < |p.unit.work.chat.steps| by { HandlingAt(b, p.unit, j); }
      BlockTracks(w, t, b, p, uses[0], j);
      BlockFrame(w, t, p, uses[0]);
      match HandleBlock(w, t, p, uses[0]) {
        case Halt(_, _) =>
        case More(q) => BlocksTrack(w, t, b, q, uses[1..], j);
      }
    }
  }

  lemma {:induction false} HandlingAt(b: Base, u: Unit, j: int)
    requires Handling(b, u, j)
    ensures 0 <= j < |u.work.chat.steps| && u.work.chat.steps[j].body.Assistant?
  {
  }

  // ---- rounds ----

  /** Between rounds: as many model calls as replies. */
  ghost predicate Going(w: World, hasProject: bool, b: Base, u: Unit) {
    && Tracks(w, hasProject, b, u.work) && LogTracks(w, hasProject, b, u.log) && Ids(b, u)
    && |u.sent| == ReplyCount(u.work.chat.steps[|b.store.chat.steps|..])
  }

  lemma {:induction false} ReplySnoc(steps: seq<Step>, s: Step)
    ensures ReplyCount(steps + [s]) == ReplyCount(steps) + if s.body.Assistant? then 1 else 0
  {
    assert (steps + [s])[..|steps|] == steps;
  }

  lemma {:induction false} ReplyTools(a: seq<Step>, d: seq<Step>)
    requires a <= d && forall i :: |a| <= i < |d| ==> d[i].body.Tool?
    ensures ReplyCount(d) == ReplyCount(a)
    decreases |d|
  {
    if |d| > |a| {
      var n := |d| - 1;
      ReplyTools(a, d[..n]);
      assert d == d[..n] + [d[n]];
    } else {
      assert a == d;
    }
  }

  /** A reply was stored: the working rows are tracked, and the reply is the one being handled. */
  lemma {:induction false} WrittenTracks(w: World, hasProject: bool, b: Base, u: Unit, body: Body)
    requires Going(w, hasProject, b, u) && body.Assistant?
    ensures var v := Commit(u);
            var x := Write(v.(sent := v.sent + [v.work.chat]), b.turn, body);
            && Tracks(w, hasProject, b, x.work) && LogTracks(w, hasProject, b, x.log) && x.log != [] && Ids(b, x)
            && Handling(b, x, |u.work.chat.steps|)
            && x.work.chat.steps[|u.work.chat.steps|].body == body
  {
    hide Tracks, Keys;
    var from, n := |b.store.chat.steps|, |u.work.chat.steps|;
    var v := Commit(u);
    var x := Write(v.(sent := v.sent + [v.work.chat]), b.turn, body);
    assert from <= n by { TracksLength(w, hasProject, b, u.work); }
    TracksOn(w, hasProject, b, u.work, x.work);
    ReplySnoc(u.work.chat.steps[from..], Step(b.turn, body));
    assert x.work.chat.steps[from..n + 1] == u.work.chat.steps[from..] + [Step(b.turn, body)];
  }

  lemma {:induction false} TracksLength(w: World, hasProject: bool, b: Base, s: Store)
    requires Tracks(w, hasProject, b, s)
    ensures |b.store.chat.steps| <= |s.chat.steps|
  {
  }

  lemma {:induction false} LogSnoc(w: World, hasProject: bool, b: Base, log: seq<Store>, s: Store)
    requires LogTracks(w, hasProject, b, log) && Tracks(w, hasProject, b, s)
    ensures LogTracks(w, hasProject, b, log + [s])
  {
    hide Tracks;
  }

  lemma {:induction false} FinalizeTracks(w: World, t: Turn, b: Base, p: Progress, content: seq<Block>)
    requires Going(w, t.hasProject, b, p.unit) && t.id == b.turn
    ensures var u := Commit(p.unit);
            var f := Finalize(t, p.(unit := u.(sent := u.sent + [u.work.chat])), content);
            f.Halt? && FlowTracks(w, t.hasProject, b, f)
  {
    hide Tracks, Keys, Find;
    var u := Commit(p.unit);
    var q := p.(unit := u.(sent := u.sent + [u.work.chat]));
    WrittenTracks(w, t.hasProject, b, p.unit, Assistant(content, false));
    LogSnoc(w, t.hasProject, b, p.unit.log, p.unit.work);
    hide LogTracks;
    var x := Write(q.unit, t.id, Assistant(content, false));
    var f := Finalize(t, q, content);
    if Kept(f.out, f.p.unit.temporary) {
      if f.out.AssistantMessageOut? {
        TracksOn(w, t.hasProject, b, x.work, f.p.unit.work);
        LogSnoc(w, t.hasProject, b, q.unit.log, f.p.unit.work);
      } else if f.p.unit.temporary {
        TracksRolledBack(w, t.hasProject, b, x.work.chat, u.work);
      }
    }
  }

  /** The memory of a temporary chat with the account of the last commit. */
  lemma {:induction false} TracksRolledBack(w: World, hasProject: bool, b: Base, c: Chat, s: Store)
    requires Tracks(w, hasProject, b, s) && c.calls == s.chat.calls && s.chat.steps <= c.steps && b.turn < b.next
    ensures Tracks(w, hasProject, b, Store(c, s.account))
  {
    hide Tracks;
    TracksOn(w, hasProject, b, s, Store(c, s.account));
  }

  /** Behind a reply only tool steps: no further reply is counted. */
  lemma {:induction false} NoReplyBehind(a: seq<Step>, d: seq<Step>, from: nat)
    requires from <= |a| && a <= d && forall i :: |a| <= i < |d| ==> d[i].body.Tool?
    ensures ReplyCount(d[from..]) == ReplyCount(a[from..])
  {
    assert forall i :: |a| - from <= i < |d[from..]| ==> d[from..][i] == d[from + i];
    assert a[from..] <= d[from..];
    ReplyTools(a[from..], d[from..]);
  }

  lemma {:induction false} ToolUseTracks(w: World, t: Turn, b: Base, p: Progress, content: seq<Block>)
    requires Going(w, t.hasProject, b, p.unit) && t.id == b.turn
    ensures var u := Commit(p.unit);
            FlowTracks(w, t.hasProject, b, HandleToolUse(w, t, p.(unit := u.(sent := u.sent + [u.work.chat])), content))
  {
    hide Tracks, Keys, Handling, Ids, HandleBlocks;
    var u := Commit(p.unit);
    var q := p.(unit := u.(sent := u.sent + [u.work.chat]));
    var n := |p.unit.work.chat.steps|;
    WrittenTracks(w, t.hasProject, b, p.unit, Assistant(content, false));
    LogSnoc(w, t.hasProject, b, p.unit.log, p.unit.work);
    var x := q.(unit := Write(q.unit, t.id, Assistant(content, false)), clients := []);
    BlocksTrack(w, t, b, x, ToolUses(content), n);
  }

  lemma {:induction false} ToolUseCounts(w: World, t: Turn, b: Base, p: Progress, content: seq<Block>)
    requires Going(w, t.hasProject, b, p.unit) && t.id == b.turn
    ensures var u := Commit(p.unit);
            var f := HandleToolUse(w, t, p.(unit := u.(sent := u.sent + [u.work.chat])), content);
            f.More? ==>
              && |b.store.chat.steps| <= |f.p.unit.work.chat.steps|
              && |f.p.unit.sent| == ReplyCount(f.p.unit.work.chat.steps[|b.store.chat.steps|..])
  {
    hide Tracks, LogTracks, Keys, HandleBlocks, Fits, ClientUses;
    var u := Commit(p.unit);
    var q := p.(unit := u.(sent := u.sent + [u.work.chat]));
    var from := |b.store.chat.steps|;
    assert from <= |p.unit.work.chat.steps| by { TracksLength(w, t.hasProject, b, p.unit.work); }
    var x := q.(unit := Write(q.unit, t.id, Assistant(content, false)), clients := []);
    ToolUseReplies(w, t, q, content);
    BlocksFrame(w, t, x, ToolUses(content));
    var f := HandleToolUse(w, t, q, content);
    if f.More? {
      var c := p.unit.work.chat.steps;
      ReplySnoc(c[from..], Step(t.id, Assistant(content, false)));
      assert x.unit.work.chat.steps[from..] == c[from..] + [Step(t.id, Assistant(content, false))];
      NoReplyBehind(x.unit.work.chat.steps, f.p.unit.work.chat.steps, from);
    }
  }

  lemma {:induction false} RoundTracks(w: World, t: Turn, b: Base, p: Progress)
    requires Going(w, t.hasProject, b, p.unit) && t.id == b.turn
    ensures FlowTracks(w, t.hasProject, b, Round(w, t, p))
    ensures Round(w, t, p).More? ==> Going(w, t.hasProject, b, Round(w, t, p).p.unit)
  {
    hide Tracks, Keys, HandleToolUse, Finalize;
    var u := Commit(p.unit);
    var q := p.(unit := u.(sent := u.sent + [u.work.chat]));
    LogSnoc(w, t.hasProject, b, p.unit.log, p.unit.work);
    match w.model(|u.sent|, Build(u.work.chat.steps))
    case Unavailable =>
    case AuthRejected =>
      if t.mode.Byok? {
        var f := HandleAuthRejected(t, q);
        TracksOn(w, t.hasProject, b, p.unit.work, f.p.unit.work);
        LogSnoc(w, t.hasProject, b, u.log, f.p.unit.work);
      }
    case Reply(stop, content) =>
      if stop.MaxTokens? {
        WrittenTracks(w, t.hasProject, b, p.unit, Assistant(content, true));
        LogSnoc(w, t.hasProject, b, u.log, Write(q.unit, t.id, Assistant(content, true)).work);
      } else if stop.ToolUseStop? && ToolUses(content) != [] {
        ToolUseTracks(w, t, b, p, content);
        ToolUseCounts(w, t, b, p, content);
        match HandleToolUse(w, t, q, content) {
          case Halt(_, _) =>
          case More(r) => LogSnoc(w, t.hasProject, b, r.unit.log, r.unit.work);
        }
      } else {
        FinalizeTracks(w, t, b, p, content);
      }
  }

  lemma {:induction false} LoopTracks(w: World, t: Turn, b: Base, p: Progress, n: nat)
    requires Going(w, t.hasProject, b, p.unit) && t.id == b.turn
    ensures var (q, out) := Loop(w, t, p, n); FlowTracks(w, t.hasProject, b, Halt(q, out))
    decreases n
  {
    hide Round, Tracks, LogTracks, Ids;
    LogSnoc(w, t.hasProject, b, p.unit.log, p.unit.work);
    if n > 0 {
      RoundTracks(w, t, b, p);
      match Round(w, t, p) {
        case Halt(_, _) =>
        case More(q) => LoopTracks(w, t, b, q, n - 1);
      }
    }
  }

  // ---- requests ----

  /** The states a request commits that hold all its calls: all of them, except that the memory of a
      temporary chat keeps the calls of a reply whose image could not be paid. */
  function Settled(trace: Trace, temporary: bool): seq<Store> {
    if temporary && trace.out == Blocked(Policy.ImageCreditsEmpty) && trace.log != []
    then trace.log[..|trace.log| - 1] else trace.log
  }

  lemma {:induction false} NothingAdded(w: World, hasProject: bool, b: Base, u: Unit)
    requires b == Base(u.work, u.next, b.turn) && Starts(u) && Ids(b, u)
    ensures Going(w, hasProject, b, u)
  {
    hide Keys;
    assert u.work.chat.steps[|u.work.chat.steps|..] == [];
  }

  lemma {:induction false} ContinueTracks(w: World, turn: Id, mode: Policy.Mode, hasProject: bool, u: Unit)
    requires Starts(u) && Ids(Base(u.work, u.next, turn), u)
    ensures var (p, out) := Finish(Continue(w, turn, mode, hasProject, u));
            LogTracks(w, hasProject, Base(u.work, u.next, turn), Settled(Trace(out, p.unit.log, p.unit.sent), u.temporary))
            && p.unit.temporary == u.temporary
  {
    hide Tracks, Loop, Ids, Finish;
    var b := Base(u.work, u.next, turn);
    var t := Turn(turn, mode, Policy.BillingPlan(mode, u.work.account.PolicyState()), hasProject);
    NothingAdded(w, hasProject, b, u);
    LoopTracks(w, t, b, Progress(u, [], [], []), w.rounds + 1);
    ContinueSends(w, turn, mode, hasProject, u);
    SentBound(w, t, Progress(u, [], [], []), w.rounds + 1);
    var (p, out) := Continue(w, turn, mode, hasProject, u);
    LogSnoc(w, hasProject, b, u.log, u.work);
    FinishTracks(w, hasProject, b, p, out);
  }

  lemma {:induction false} FinishTracks(w: World, hasProject: bool, b: Base, p: Progress, out: Outcome)
    requires FlowTracks(w, hasProject, b, Halt(p, out))
    ensures var (q, o) := Finish((p, out));
            LogTracks(w, hasProject, b, Settled(Trace(o, q.unit.log, q.unit.sent), p.unit.temporary))
  {
    hide Tracks;
    if !out.Raised? {
      if Kept(out, p.unit.temporary) {
        LogSnoc(w, hasProject, b, p.unit.log, p.unit.work);
      } else {
        assert (p.unit.log + [p.unit.work])[..|p.unit.log|] == p.unit.log;
      }
    }
  }

  /** Does the request run on a session with a project? */
  function InProject(db: Database, r: Request): bool {
    match r
    case Run(_, _, _, _, _) => Target(db, r).1.hasProject
    case ToolResult(id, _) => id in db.sessions && db.sessions[id].hasProject
    case _ => false
  }

  /** Every tool call tells the truth. In every state a request commits, each call its generation added
      holds, in its row and in a tool step, exactly what its handler returned for the stored arguments, or
      the fixed error of an image that was refused or failed; those arguments are the validated ones of a
      block of a stored reply; each image row and each debit added belongs to an image call whose bytes
      were made, or is the one credit of the final step; and every other call cost nothing. */
  lemma {:induction false} CallsTellTheTruth(cost: int, w: World, db: Database, r: Request, i: nat)
    requires DbInv(cost, db) && w.cost == cost && BaseOf(w, db, r).Some?
    requires i < |Settled(Exec(w, db, r).1, r.TemporaryRun?)|
    ensures Tracks(w, InProject(db, r), BaseOf(w, db, r).value, Exec(w, db, r).1.log[i])
  {
    hide DbInv, Exec, BaseOf, Tracks, Continue, Finish, Ids;
    var b := BaseOf(w, db, r).value;
    BaseIds(cost, w, db, r);
    if r.TemporaryRun? {
      TemporaryStart(w, db, r);
      var u := Unit(b.store, [], b.next, [], true);
      ContinueTracks(w, b.turn, r.mode, false, u);
    } else {
      GenerationIs(w, db, r);
      var s := Place(db, r).1;
      ContinueTracks(w, b.turn, s.mode, s.hasProject, Opening(b));
    }
    var log := Settled(Exec(w, db, r).1, r.TemporaryRun?);
    assert log[i] == Exec(w, db, r).1.log[i];
  }

  lemma {:induction false} TemporaryStart(w: World, db: Database, r: Request)
    requires r.TemporaryRun? && BaseOf(w, db, r).Some?
    ensures var b := BaseOf(w, db, r).value;
            var (p, out) := Finish(Continue(w, b.turn, r.mode, false, Unit(b.store, [], b.next, [], true)));
            Exec(w, db, r).1 == Trace(out, p.unit.log, p.unit.sent)
  {
    hide Continue, Finish;
  }

  lemma {:induction false} BaseIds(cost: int, w: World, db: Database, r: Request)
    requires DbInv(cost, db) && w.cost == cost && BaseOf(w, db, r).Some?
    ensures var b := BaseOf(w, db, r).value;
            && (r.Run? || r.TemporaryRun? || (r.ToolResult? && r.session in db.sessions))
            && forall sent, log, temporary :: Ids(b, Unit(b.store, log, b.next, sent, temporary))
  {
    hide Keys, AccountInv, ChatInv, ApplyResults, PendingClient, NextStepAfter, Resolve, CutAt;
    var b := BaseOf(w, db, r).value;
    assert b.store.account == db.account && b.next >= db.next;
    KeysBelow(cost, db.account, db.next);
    if r.ToolResult? {
      var c := db.sessions[r.session].chat;
      BaseBelow(cost, w, db, r);
      ResolvedCall(c, r.items);
      CallsApart(c, db.account.initiated, db.next, r.items[0].call);
      ApplyKeeps(c, db.account.initiated, db.next, r.items);
      CallsInitiated(b.store.chat, db.account.initiated, db.next);
    } else if r.Run? {
      BaseBelow(cost, w, db, r);
      if !Target(db, r).2 { RunCalls(cost, db, r); }
    }
  }

  lemma {:induction false} KeysBelow(cost: int, a: Account, next: Id)
    requires AccountInv(cost, a, next)
    ensures forall k: nat :: Uuid(k) in Keys(a.purse.ledger) ==> k < next
  {
    hide Keys, Sound, Conserved, TrialOnce;
  }

  lemma {:induction false} ResolvedCall(c: Chat, items: seq<ResultItem>)
    requires Resolve(c, items, None).0.Some?
    ensures items != [] && items[0].call in c.calls && Resolve(c, items, None).0.value == c.calls[items[0].call].turn
  {
    if items != [] { assert items[0] in items; }
  }

  lemma {:induction false} CallsApart(c: Chat, initiated: map<Id, Id>, next: Id, id: Id)
    requires ChatInv(c, initiated, next) && id in c.calls
    ensures c.calls[id].turn < next && c.calls[id].turn !in initiated
  {
    hide CallInv;
    assert c.calls[id].turn in Turns(c.steps);
    var i :| 0 <= i < |c.steps| && c.steps[i].turn == c.calls[id].turn;
    assert StepInv(c, initiated, next, c.steps[i]);
  }

  lemma {:induction false} CallsInitiated(c: Chat, initiated: map<Id, Id>, next: Id)
    requires ChatInv(c, initiated, next)
    ensures forall id :: id in c.calls ==> id in initiated
  {
    hide StepInv, CallsHaveSteps;
    forall id | id in c.calls ensures id in initiated { assert CallInv(c, initiated, id); }
  }

  lemma {:induction false} RunCalls(cost: int, db: Database, r: Request)
    requires DbInv(cost, db) && r.Run? && !Target(db, r).2
    ensures forall id :: id in Target(db, r).1.chat.calls ==> id < db.next
    ensures r.request.edit.Some? && Truncate(Target(db, r).1.chat, r.request.edit.value).Some? ==>
              forall id :: id in Truncate(Target(db, r).1.chat, r.request.edit.value).value.calls ==> id < db.next
  {
    hide AccountInv, ChatInv;
    CallsBelow(Target(db, r).1.chat, db.account.initiated, db.next);
    if r.request.edit.Some? { CutCalls(Target(db, r).1.chat, r.request.edit.value); }
  }
}
