/** What the user has paid for: debits of a turn against its stored images and its final step. */
module Money {
  import opened Wallet
  import opened Records
  import opened Engine
  import Policy

  /** Does a ledger row charge this turn: directly, or through a tool call the turn opened? */
  predicate Charges(row: Row, initiated: map<Id, Id>, turn: Id) {
    && row.kind.Debit?
    && row.key.Uuid?
    && (row.key.id == turn || (row.key.id in initiated && initiated[row.key.id] == turn))
  }

  /** Sum of all debits ever made for a turn. */
  function Debits(ledger: seq<Row>, initiated: map<Id, Id>, turn: Id): int {
    if ledger == [] then 0
    else
      var last := ledger[|ledger| - 1];
      Debits(ledger[..|ledger| - 1], initiated, turn) + if Charges(last, initiated, turn) then last.amount else 0
  }

  function ImagesOf(images: seq<ImageRow>, turn: Id): nat {
    if images == [] then 0
    else ImagesOf(images[..|images| - 1], turn) + if images[|images| - 1].turn == turn then 1 else 0
  }

  function TrialFinals(finals: seq<Final>): nat {
    if finals == [] then 0
    else TrialFinals(finals[..|finals| - 1]) + if finals[|finals| - 1].plan.SpendTrial? then 1 else 0
  }

  /** A final assistant step was committed for the turn under the debit plan. */
  predicate Billed(finals: seq<Final>, turn: Id) { Final(turn, Policy.DebitCredit) in finals }

  predicate Balanced(cost: int, a: Account, turn: Id) {
    Debits(a.purse.ledger, a.initiated, turn) ==
      cost * ImagesOf(a.images, turn) + if Billed(a.finals, turn) then 1 else 0
  }

  ghost predicate Conserved(cost: int, a: Account) {
    forall turn :: turn !in a.initiated ==> Balanced(cost, a, turn)
  }

  /** At most one final step was ever paid with the lifetime trial, and only if it is marked used. */
  predicate TrialOnce(a: Account) {
    TrialFinals(a.finals) <= if a.trialUsed then 1 else 0
  }

  /** Ids are older than `next`; a tool call is never a turn. */
  ghost predicate IdsInv(a: Account, next: Id) {
    && (forall c :: c in a.initiated ==> c < next && a.initiated[c] < next && a.initiated[c] !in a.initiated)
    && (forall f :: f in a.finals ==> f.turn < next && f.turn !in a.initiated)
  }

  /** Which ledger rows carry a generated id: image debits of opened calls, one credit of billed turns. */
  ghost predicate KeysInv(a: Account, next: Id) {
    && (forall k: nat :: Uuid(k) in Keys(a.purse.ledger) ==>
          && k < next
          && (k !in a.initiated ==> Billed(a.finals, k) && Find(a.purse.ledger, Uuid(k)) == Some(Row(Uuid(k), Debit, 1))))
    && (forall t: Id :: Billed(a.finals, t) ==> Uuid(t) in Keys(a.purse.ledger))
  }

  ghost predicate AccountInv(cost: int, a: Account, next: Id) {
    && Sound(a.purse)
    && IdsInv(a, next)
    && KeysInv(a, next)
    && Conserved(cost, a)
    && TrialOnce(a)
  }

  lemma {:induction false} DebitsSnoc(ledger: seq<Row>, row: Row, initiated: map<Id, Id>, turn: Id)
    ensures Debits(ledger + [row], initiated, turn) ==
            Debits(ledger, initiated, turn) + if Charges(row, initiated, turn) then row.amount else 0
  {
    assert (ledger + [row])[..|ledger|] == ledger;
  }

  /** Opening a call whose id no row carries leaves every turn's debits as they were. */
  lemma {:induction false} DebitsFrame(ledger: seq<Row>, initiated: map<Id, Id>, id: Id, owner: Id, turn: Id)
    requires Wallet.Key.Uuid(id) !in Keys(ledger) && id !in initiated
    ensures Debits(ledger, initiated[id := owner], turn) == Debits(ledger, initiated, turn)
  {
    if ledger != [] {
      DebitsFrame(ledger[..|ledger| - 1], initiated, id, owner, turn);
    }
  }

  lemma {:induction false} ImagesSnoc(images: seq<ImageRow>, row: ImageRow, turn: Id)
    ensures ImagesOf(images + [row], turn) == ImagesOf(images, turn) + if row.turn == turn then 1 else 0
  {
    assert (images + [row])[..|images|] == images;
  }

  lemma {:induction false} FinalsSnoc(finals: seq<Final>, f: Final)
    ensures TrialFinals(finals + [f]) == TrialFinals(finals) + if f.plan.SpendTrial? then 1 else 0
    ensures forall t :: Billed(finals + [f], t) <==> Billed(finals, t) || f == Final(t, Policy.DebitCredit)
  {
    assert (finals + [f])[..|finals|] == finals;
  }

  lemma {:induction false} NextGrows(cost: int, a: Account, next: Id, later: Id)
    requires AccountInv(cost, a, next) && next <= later
    ensures AccountInv(cost, a, later)
  {
  }

  lemma {:induction false} OpenKeepsAccount(cost: int, a: Account, next: Id, turn: Id)
    requires AccountInv(cost, a, next) && turn < next && turn !in a.initiated
    ensures AccountInv(cost, a.(initiated := a.initiated[next := turn]), next + 1)
  {
    hide Sound, TrialOnce, Find, Keys, Debits, ImagesOf;
    var b := a.(initiated := a.initiated[next := turn]);
    TrialFrame(a, b);
    forall t | t !in b.initiated ensures Balanced(cost, b, t) {
      assert Balanced(cost, a, t);
      DebitsFrame(a.purse.ledger, a.initiated, next, turn, t);
    }
  }

  /** A new row on the ledger, with its key and signed amount. */
  lemma {:induction false} ConsumeEffect(p: Purse, key: Wallet.Key, amount: int)
    requires Sound(p)
    ensures var (q, v) := Consume(p, key, amount);
            && (v.Ok() ==> Sound(q))
            && (v.Applied? ==> amount > 0 && key !in Keys(p.ledger) && q.ledger == p.ledger + [Row(key, Debit, amount)]
                               && Keys(q.ledger) == Keys(p.ledger) + {key}
                               && Find(q.ledger, key) == Some(Row(key, Debit, amount))
                               && forall k :: k != key ==> Find(q.ledger, k) == Find(p.ledger, k))
            && (v.Replayed? ==> q == p && Find(p.ledger, key) == Some(Row(key, Debit, amount)))
  {
    hide Net, UniqueKeys, Keys, Find, Sound;
    var row := Row(key, Debit, amount);
    PerformSound(p, Op(Debit, key, amount));
    FindAppend(p.ledger, row, key);
    forall k ensures k != key ==> Find(p.ledger + [row], k) == Find(p.ledger, k) {
      FindAppend(p.ledger, row, k);
    }
  }

  function ChargeImage(a: Account, purse: Purse, turn: Id, id: Id): Account {
    a.(purse := purse, images := a.images + [ImageRow(turn, id)])
  }

  lemma {:induction false} ChargeKeepsAccount(cost: int, a: Account, next: Id, turn: Id, id: Id)
    requires AccountInv(cost, a, next) && id in a.initiated && a.initiated[id] == turn
    requires Wallet.Key.Uuid(id) !in Keys(a.purse.ledger)
    requires Consume(a.purse, Uuid(id), cost).1.Ok()
    ensures AccountInv(cost, ChargeImage(a, Consume(a.purse, Uuid(id), cost).0, turn, id), next)
  {
    hide Sound, TrialOnce, Find, Keys, Debits, ImagesOf, Consume, Billed;
    var purse := Consume(a.purse, Uuid(id), cost).0;
    ConsumeEffect(a.purse, Uuid(id), cost);
    var b := ChargeImage(a, purse, turn, id);
    assert TrialOnce(b) by { TrialFrame(a, b); }
    forall t | t !in b.initiated ensures Balanced(cost, b, t) {
      assert Balanced(cost, a, t);
      assert Charges(Row(Uuid(id), Debit, cost), a.initiated, t) <==> t == turn;
      DebitsSnoc(a.purse.ledger, Row(Uuid(id), Debit, cost), a.initiated, t);
      ImagesSnoc(a.images, ImageRow(turn, id), t);
      var n := ImagesOf(a.images, t);
      assert cost * (n + 1) == cost * n + cost;
    }
  }

  lemma {:induction false} TrialFrame(a: Account, b: Account)
    requires TrialOnce(a) && a.finals == b.finals && (a.trialUsed ==> b.trialUsed)
    ensures TrialOnce(b)
  {
  }

  function AddFinal(a: Account, turn: Id, plan: Policy.Plan): Account {
    a.(finals := a.finals + [Final(turn, plan)])
  }

  lemma {:induction false} FreeFinalKeepsAccount(cost: int, a: Account, next: Id, turn: Id, plan: Policy.Plan)
    requires AccountInv(cost, a, next) && turn < next && turn !in a.initiated
    requires !plan.DebitCredit? && (plan.SpendTrial? ==> !a.trialUsed)
    ensures plan.Free? ==> AccountInv(cost, AddFinal(a, turn, plan), next)
    ensures AccountInv(cost, AddFinal(a, turn, plan).(trialUsed := true), next)
  {
    hide Sound, Find, Keys, Debits, ImagesOf, TrialFinals, Billed;
    FinalsSnoc(a.finals, Final(turn, plan));
    var b := AddFinal(a, turn, plan);
    forall t | t !in b.initiated ensures Balanced(cost, b, t) && Balanced(cost, b.(trialUsed := true), t) {
      assert Balanced(cost, a, t);
    }
  }

  lemma {:induction false} BilledFinalBalanced(cost: int, a: Account, next: Id, turn: Id, b: Account, t: Id)
    requires AccountInv(cost, a, next) && turn < next && turn !in a.initiated
    requires Consume(a.purse, Uuid(turn), 1).1.Ok()
    requires t !in a.initiated && b == AddFinal(a, turn, Policy.DebitCredit).(purse := Consume(a.purse, Uuid(turn), 1).0)
    ensures Balanced(cost, b, t)
  {
    hide Sound, Find, Keys, Debits, ImagesOf, TrialFinals, Consume, Billed, IdsInv, TrialOnce;
    ConsumeEffect(a.purse, Uuid(turn), 1);
    FinalsSnoc(a.finals, Final(turn, Policy.DebitCredit));
    assert Balanced(cost, a, t);
    if Consume(a.purse, Uuid(turn), 1).1.Applied? {
      DebitsSnoc(a.purse.ledger, Row(Uuid(turn), Debit, 1), a.initiated, t);
      assert !Billed(a.finals, turn);
      assert Charges(Row(Uuid(turn), Debit, 1), a.initiated, t) <==> t == turn;
    } else {
      assert Billed(a.finals, turn) by {
        assert Find(a.purse.ledger, Uuid(turn)).Some?;
        FindHasKey(a.purse.ledger, Uuid(turn));
      }
    }
  }

  lemma {:induction false} FindHasKey(ledger: seq<Row>, key: Wallet.Key)
    ensures Find(ledger, key).Some? <==> key in Keys(ledger)
  {
  }

  lemma {:induction false} BilledFinalKeepsAccount(cost: int, a: Account, next: Id, turn: Id)
    requires AccountInv(cost, a, next) && turn < next && turn !in a.initiated
    requires Consume(a.purse, Uuid(turn), 1).1.Ok()
    ensures AccountInv(cost, AddFinal(a, turn, Policy.DebitCredit).(purse := Consume(a.purse, Uuid(turn), 1).0), next)
  {
    hide Sound, Find, Keys, Debits, ImagesOf, TrialFinals, Consume, Billed, Balanced;
    var b := AddFinal(a, turn, Policy.DebitCredit).(purse := Consume(a.purse, Uuid(turn), 1).0);
    ConsumeEffect(a.purse, Uuid(turn), 1);
    FinalsSnoc(a.finals, Final(turn, Policy.DebitCredit));
    forall t | t !in b.initiated ensures Balanced(cost, b, t) { BilledFinalBalanced(cost, a, next, turn, b, t); }
  }

  /** Wallet calls from outside use names, which no turn or tool call has. */
  lemma {:induction false} OutsideKeepsAccount(cost: int, a: Account, next: Id, op: Op)
    requires AccountInv(cost, a, next) && op.key.Named? && Perform(a.purse, op).1.Ok()
    ensures AccountInv(cost, a.(purse := Perform(a.purse, op).0), next)
  {
    hide Sound, Find, Keys, Debits, ImagesOf, TrialFinals, Net, UniqueKeys, Billed;
    var b := a.(purse := Perform(a.purse, op).0);
    var row := Row(op.key, op.kind, op.amount);
    PerformSound(a.purse, op);
    if b.purse.ledger != a.purse.ledger {
      assert b.purse.ledger == a.purse.ledger + [row];
      FindAppend(a.purse.ledger, row, op.key);
      forall k ensures k != op.key ==> Find(b.purse.ledger, k) == Find(a.purse.ledger, k) {
        FindAppend(a.purse.ledger, row, k);
      }
      forall t | t !in b.initiated ensures Balanced(cost, b, t) {
        assert Balanced(cost, a, t);
        DebitsSnoc(a.purse.ledger, row, a.initiated, t);
      }
    } else {
      forall t | t !in b.initiated ensures Balanced(cost, b, t) { assert Balanced(cost, a, t); }
    }
  }

  lemma {:induction false} EmptyAccount(cost: int, trialUsed: bool, subscription: Policy.Subscription, key: Engine.Key)
    ensures AccountInv(cost, Account(Purse(0, []), map[], [], [], trialUsed, subscription, key), 0)
  {
  }
}
