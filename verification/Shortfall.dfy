/** Turns that stop at the policy check or at the wallet, and what they leave behind. */
module Shortfall {
  import opened Wallet
  import opened Records
  import opened Repository
  import opened Engine
  import opened Money
  import opened Growth
  import opened Runs
  import opened Responses
  import opened Scenarios
  import Policy

  // ---- blocked by the policy check ----

  const SPENT := NEW.(account := NEW.account.(trialUsed := true))

  function Message(turn: Id, text: string): Chat { Chat([Step(turn, User([Text(text)], None))], map[]) }

  /** A user without a subscription whose trial is used sends a message and then edits it: both requests are
      blocked, and yet the first message is stored, and then replaced by the second. */
  lemma {:induction false} BlockedEdit()
    ensures var w := Replying(0, Unavailable);
            var (first, one) := Exec(w, SPENT, Say(None, "a", None));
            var (second, two) := Exec(w, first, Say(Some(0), "b", Some(1)));
            && Fresh(SPENT)
            && one.out == two.out == Blocked(Policy.TrialUsed)
            && first == Alone(Message(1, "a"), SPENT.account, 2)
            && second == Alone(Message(2, "b"), SPENT.account, 3)
  {
    hide Exec;
    var w := Replying(0, Unavailable);
    assert BaseOf(w, SPENT, Say(None, "a", None)).value == Base(Store(Message(1, "a"), SPENT.account), 2, 1);
    BlockedCommits(w, SPENT, Say(None, "a", None));
    var first := Exec(w, SPENT, Say(None, "a", None)).0;
    assert first == Alone(Message(1, "a"), SPENT.account, 2);
    assert IsUser(1)(Message(1, "a").steps[0]);
    assert Truncate(Message(1, "a"), 1) == Some(Chat([], map[]));
    BlockedCommits(w, first, Say(Some(0), "b", Some(1)));
    assert BaseOf(w, first, Say(Some(0), "b", Some(1))).value == Base(Store(Message(2, "b"), SPENT.account), 3, 2);
  }

  // ---- blocked by the wallet, after an image ----

  /** A round that stores one image. */
  lemma {:induction false} PaintRound(w: World, t: Turn, p: Progress, use: Block, args: string)
    requires use.ToolUse? && w.kind(use.name).Image? && w.validate(use.name, use.input) == Some(args)
    requires w.model(|p.unit.sent|, Build(p.unit.work.chat.steps)) == Reply(ToolUseStop, [use])
    requires w.picture(|p.unit.sent| + 1, use.id).Bytes?
    requires var purse := p.unit.work.account.purse;
             Find(purse.ledger, Uuid(p.unit.next)).None? && purse.balance >= w.cost > 0
    ensures Round(w, t, p) == More(Painted(w, t, p, use, args))
  {
    hide Find;
    assert [use][1..] == [];
    assert ToolUses([use]) == [use];
    var u := Commit(p.unit);
    var q := p.(unit := Write(u.(sent := u.sent + [u.work.chat]), t.id, Assistant([use], false)), clients := []);
    var done := Painted(w, t, p, use, args);
    var x := done.(unit := done.unit.(log := u.log));
    assert HandleBlock(w, t, q, use) == More(x);
    assert HandleBlocks(w, t, x, []) == More(x);
  }

  function Painted(w: World, t: Turn, p: Progress, use: Block, args: string): Progress
    requires use.ToolUse?
  {
    var u := Commit(p.unit);
    var id := u.next;
    var v := OpenCall(Write(u.(sent := u.sent + [u.work.chat]), t.id, Assistant([use], false)),
                      t.id, use.name, args, use.id);
    var a := v.work.account;
    var purse := Purse(a.purse.balance - w.cost, a.purse.ledger + [Row(Uuid(id), Debit, w.cost)]);
    var chat := Answer(v.work.chat, id, Some("image"), None);
    Progress(Commit(v.(work := Store(chat, a.(purse := purse, images := a.images + [ImageRow(t.id, id)])))),
             p.tools + [ServerTool(id, use.name, Completed)], p.images + [id], [])
  }

  /** A final reply that the wallet cannot pay: the round leaves the state it began with. */
  lemma {:induction false} ShortRound(w: World, t: Turn, p: Progress, content: seq<Block>)
    requires w.model(|p.unit.sent|, Build(p.unit.work.chat.steps)) == Reply(EndTurn, content)
    requires t.plan.DebitCredit? && !p.unit.temporary
    requires var purse := p.unit.work.account.purse; Find(purse.ledger, Uuid(t.id)).None? && purse.balance < 1
    ensures var u := Commit(p.unit);
            Round(w, t, p) == Halt(p.(unit := u.(sent := u.sent + [u.work.chat])), Blocked(Policy.CreditsEmpty))
  {
    hide Find;
  }

  const IMAGE := ToolUse("x", "image.generate", "")

  /** The first reply asks for an image, the second is final; an image costs one credit. */
  function Painting(): World {
    World(name => Image, 1, 1,
          (n, ms) => if |ms| == 1 then Reply(ToolUseStop, [IMAGE]) else Reply(EndTurn, [Text("t")]),
          (name, input) => Some(input), (id, name, args) => Refused(""), (n, provider) => Bytes)
  }

  /** A subscriber with one credit asks for an image. */
  function OneCredit(): seq<Event> {
    [Event(Painting(), SetSubscription(Policy.Active)), Event(Painting(), WalletGrant("g", 1)),
     Event(Painting(), Say(None, "a", None))]
  }

  const GRANTED := NEW.account.(subscription := Policy.Active, purse := Purse(1, [Row(Named("g"), Credit, 1)]))

  const PAINTED := GRANTED.(purse := Purse(0, GRANTED.purse.ledger + [Row(Uuid(2), Debit, 1)]),
                            initiated := map[2 := 1], images := [ImageRow(1, 2)])

  function Illustrated(): Chat {
    Chat([Step(1, User([Text("a")], None)), Step(1, Assistant([IMAGE], false)),
          Step(1, Tool(2, "x", "image.generate", Some("image"), None))],
         map[2 := Call(1, "image.generate", "", "x", Completed, Some("image"))])
  }

  lemma {:induction false} NotInLedger(id: nat)
    ensures Find(GRANTED.purse.ledger, Uuid(id)).None?
    ensures id != 2 ==> Find(PAINTED.purse.ledger, Uuid(id)).None?
  {
    assert GRANTED.purse.ledger[..0] == [];
    assert PAINTED.purse.ledger[..1] == GRANTED.purse.ledger;
  }

  lemma {:induction false} PaintsOnce()
    ensures var t := Turn(1, Policy.Credits, Policy.DebitCredit, false);
            var u := Unit(Store(Message(1, "a"), GRANTED), [], 2, [], false);
            var (p, out) := Loop(Painting(), t, Progress(u, [], [], []), 2);
            out == Blocked(Policy.CreditsEmpty) && p.unit.work == Store(Illustrated(), PAINTED) && p.unit.next == 3
  {
    hide Round, Find;
    var w := Painting();
    var t := Turn(1, Policy.Credits, Policy.DebitCredit, false);
    var u := Unit(Store(Message(1, "a"), GRANTED), [], 2, [], false);
    var p := Progress(u, [], [], []);
    NotInLedger(2);
    PaintRound(w, t, p, IMAGE, "");
    var q := Painted(w, t, p, IMAGE, "");
    assert q.unit.work == Store(Illustrated(), PAINTED) by {
      assert Message(1, "a").steps + [Illustrated().steps[1]] + [Illustrated().steps[2]] == Illustrated().steps;
    }
    NotInLedger(1);
    ShortRound(w, t, q, [Text("t")]);
  }

  lemma {:induction false} Funded()
    ensures var e := OneCredit();
            var one := Exec(e[0].world, NEW, e[0].request).0;
            Exec(e[1].world, one, e[1].request).0 == Database(map[], GRANTED, 0)
  {
    assert [] + [Row(Named("g"), Credit, 1)] == GRANTED.purse.ledger;
    assert Find([], Named("g")) == None;
  }

  /** A turn that ends without a credit for its answer keeps the image it paid for: the image and its debit
      are committed before the final step is refused. */
  lemma {:induction false} ImagePaidTurnBlocked()
    ensures var e := OneCredit();
            var now := Play(NEW, e);
            && Fresh(NEW) && SameCost(1, e)
            && TraceAt(NEW, e, 2).out == Blocked(Policy.CreditsEmpty)
            && now == Alone(Illustrated(), PAINTED, 3)
            && Debits(now.account.purse.ledger, now.account.initiated, 1) == 1
            && ImagesOf(now.account.images, 1) == 1 && !Billed(now.account.finals, 1)
  {
    hide Exec, Loop;
    var e := OneCredit();
    Funded();
    var db := Database(map[], GRANTED, 0);
    BeforeLast(e);
    GenerationIs(e[2].world, db, e[2].request);
    assert BaseOf(e[2].world, db, e[2].request).value == Base(Store(Message(1, "a"), GRANTED), 2, 1);
    PaintsOnce();
    ImageCharged();
  }

  lemma {:induction false} BeforeLast(e: seq<Event>)
    requires |e| == 3
    ensures var one := Exec(e[0].world, NEW, e[0].request).0;
            var two := Exec(e[1].world, one, e[1].request).0;
            && Play(NEW, e[..2]) == two && TraceAt(NEW, e, 2) == Exec(e[2].world, two, e[2].request).1
            && Play(NEW, e) == Exec(e[2].world, two, e[2].request).0
  {
    hide Exec;
    PlayThree(NEW, e);
    PlayTwo(NEW, e[..2]);
  }

  lemma {:induction false} ImageCharged()
    ensures Debits(PAINTED.purse.ledger, PAINTED.initiated, 1) == 1 && ImagesOf(PAINTED.images, 1) == 1
  {
    DebitsSnoc([], Row(Named("g"), Credit, 1), PAINTED.initiated, 1);
    DebitsSnoc(GRANTED.purse.ledger, Row(Uuid(2), Debit, 1), PAINTED.initiated, 1);
    assert [] + [Row(Named("g"), Credit, 1)] == GRANTED.purse.ledger;
    ImagesSnoc([], ImageRow(1, 2), 1);
    assert [] + [ImageRow(1, 2)] == PAINTED.images;
  }
}
