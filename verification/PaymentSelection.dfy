/** Which payments a CloudPayments callback selects and credits, told by the fields of the verified list. */
module PaymentSelection {
  import opened Wallet
  import opened Strings
  import opened CloudPayments

  /** What an item must say to be selected: a paid status, a date inside the window, and three fields that
      are not blank. */
  predicate Qualifies(rules: Rules, now: int, item: Item) {
    && rules.lower(Trim(item.status)) in rules.paid
    && item.paidAt.Some? && item.paidAt.value >= now - rules.freshness
    && item.id.Some? && Trim(item.id.value) != ""
    && item.code.Some? && Trim(item.code.value) != ""
    && item.kind.Some? && Trim(item.kind.value) != ""
  }

  /** The payment an item stands for: its trimmed fields, and its type by name. */
  predicate StandsFor(rules: Rules, item: Item, p: Payment) {
    && item.id.Some? && p.id == Trim(item.id.value)
    && item.code.Some? && p.code == Trim(item.code.value)
    && item.kind.Some?
    && (p.kind.OneTime? <==> rules.lower(Trim(item.kind.value)) == "one_time")
    && (p.kind.Subscription? <==> rules.lower(Trim(item.kind.value)) == "subscription")
  }

  /** The positions of the qualifying items, in list order. */
  function Positions(rules: Rules, now: int, data: seq<Item>): seq<nat> {
    if data == [] then []
    else
      var n := |data| - 1;
      Positions(rules, now, data[..n]) + if Qualifies(rules, now, data[n]) then [n] else []
  }

  /** Increasing, only qualifying items, and all of them. */
  lemma {:induction false} PositionsMean(rules: Rules, now: int, data: seq<Item>)
    ensures var at := Positions(rules, now, data);
            && (forall k :: 0 <= k < |at| ==> at[k] < |data| && Qualifies(rules, now, data[at[k]]))
            && (forall j, k :: 0 <= j < k < |at| ==> at[j] < at[k])
            && (forall i :: 0 <= i < |data| && Qualifies(rules, now, data[i]) ==> i in at)
  {
    hide Qualifies;
    if data != [] {
      var n := |data| - 1;
      var before, at := Positions(rules, now, data[..n]), Positions(rules, now, data);
      PositionsMean(rules, now, data[..n]);
      assert before <= at && |at| <= |before| + 1;
      forall i | 0 <= i < |data| && Qualifies(rules, now, data[i]) ensures i in at {
        if i < n { assert data[..n][i] == data[i] && i in before; }
      }
      assert forall k :: 0 <= k < |before| ==> at[k] == before[k] && data[..n][at[k]] == data[at[k]];
    }
  }

  lemma {:induction false} ItemSelected(rules: Rules, now: int, item: Item)
    ensures Creditable(rules, now, item).Some? <==> Qualifies(rules, now, item)
    ensures Creditable(rules, now, item).Some? ==> StandsFor(rules, item, Creditable(rules, now, item).value)
  {
    hide Trim;
  }

  /** The selection is exactly the qualifying items, in list order, one payment each. */
  lemma {:induction false} SelectedItems(rules: Rules, now: int, data: seq<Item>)
    ensures var at, list := Positions(rules, now, data), Select(rules, now, data);
            && |list| == |at|
            && (forall k :: 0 <= k < |list| ==>
                  at[k] < |data| && Qualifies(rules, now, data[at[k]]) && StandsFor(rules, data[at[k]], list[k]))
            && (forall j, k :: 0 <= j < k < |at| ==> at[j] < at[k])
            && (forall i :: 0 <= i < |data| && Qualifies(rules, now, data[i]) ==> i in at)
  {
    hide Creditable, Qualifies, StandsFor;
    PositionsMean(rules, now, data);
    if data != [] {
      var n := |data| - 1;
      ItemSelected(rules, now, data[n]);
      var at, list := Positions(rules, now, data), Select(rules, now, data);
      SelectedItems(rules, now, data[..n]);
      var m := |Select(rules, now, data[..n])|;
      assert m <= |list| <= m + 1;
      forall k | 0 <= k < |list| ensures StandsFor(rules, data[at[k]], list[k]) {
        if k < m { assert at[k] == Positions(rules, now, data[..n])[k] && data[..n][at[k]] == data[at[k]]; }
      }
    }
  }

  /** Every selected payment stems from a qualifying item, and every qualifying item is selected. */
  lemma {:induction false} SelectedExactly(rules: Rules, now: int, data: seq<Item>, p: Payment)
    ensures p in Select(rules, now, data) <==>
            exists i :: 0 <= i < |data| && Qualifies(rules, now, data[i]) && StandsFor(rules, data[i], p)
  {
    hide Qualifies, Select, Positions;
    SelectedItems(rules, now, data);
    var at, list := Positions(rules, now, data), Select(rules, now, data);
    if p in list {
      var k :| 0 <= k < |list| && list[k] == p;
      assert at[k] in at;
    }
    if i :| 0 <= i < |data| && Qualifies(rules, now, data[i]) && StandsFor(rules, data[i], p) {
      assert i in at;
      var k :| 0 <= k < |at| && at[k] == i;
      assert list[k] == p by { OnePayment(rules, data[i], list[k], p); }
    }
  }

  lemma {:induction false} OnePayment(rules: Rules, item: Item, p: Payment, q: Payment)
    requires StandsFor(rules, item, p) && StandsFor(rules, item, q)
    ensures p == q
  {
    hide Trim;
  }

  // ---- amounts ----

  /** What a payment is worth, by the server-side maps: a one-time product its positive entry, a
      subscription its entry, or the default if it has none or zero. */
  predicate Worth(cfg: Config, p: Payment, amount: int) {
    match p.kind
    case OneTime => p.code in cfg.tokens && cfg.tokens[p.code] == amount && amount > 0
    case Subscription =>
      amount == if p.code in cfg.subscriptionTokens && cfg.subscriptionTokens[p.code] != 0
                then cfg.subscriptionTokens[p.code] else cfg.subscriptionDefault
    case UnknownType => false
  }

  /** A journal row and a ledger row of one payment. */
  predicate EntryOf(p: Payment, user: User, e: Event) {
    e.id == p.id && e.user == user && e.code == p.code && e.kind == p.kind && !p.kind.UnknownType?
  }

  ghost predicate CreditOf(cfg: Config, p: Payment, row: Row) {
    row.key == Named("cp-txn:" + p.id) && row.kind == Credit && row.amount > 0 && Worth(cfg, p, row.amount)
  }

  ghost predicate EntryFrom(list: seq<Payment>, user: User, e: Event) { exists p :: p in list && EntryOf(p, user, e) }

  ghost predicate CreditFrom(cfg: Config, list: seq<Payment>, row: Row) {
    exists p :: p in list && CreditOf(cfg, p, row)
  }

  /** What was added to the books stems from the payments of a list. */
  ghost predicate Stems(cfg: Config, user: User, list: seq<Payment>, b: Books, c: Books) {
    && b.journal <= c.journal
    && (forall i :: |b.journal| <= i < |c.journal| ==> EntryFrom(list, user, c.journal[i]))
    && PurseOf(b, user).ledger <= PurseOf(c, user).ledger
    && (forall i :: |PurseOf(b, user).ledger| <= i < |PurseOf(c, user).ledger| ==>
          CreditFrom(cfg, list, PurseOf(c, user).ledger[i]))
    && (forall v: User :: v != user ==> PurseOf(c, v) == PurseOf(b, v))
  }

  lemma {:induction false} ApplyStems(cfg: Config, b: Books, now: int, user: User, p: Payment)
    ensures Stems(cfg, user, [p], b, Apply(cfg, b, now, user, p).0)
  {
    hide Find, Journaled;
    var c := Apply(cfg, b, now, user, p).0;
    if Apply(cfg, b, now, user, p).1.Credited? {
      assert p in [p] && EntryOf(p, user, c.journal[|b.journal|]);
      var amount := Credits(cfg, p).value;
      assert Worth(cfg, p, amount);
      GrantNeedsAmount(PurseOf(b, user), CreditKey(p.id), amount);
    }
  }

  lemma {:induction false} StemsTrans(cfg: Config, user: User, a: seq<Payment>, d: seq<Payment>, list: seq<Payment>,
                                      b: Books, c: Books, e: Books)
    requires Stems(cfg, user, a, b, c) && Stems(cfg, user, d, c, e)
    requires (forall p :: p in a ==> p in list) && (forall p :: p in d ==> p in list)
    ensures Stems(cfg, user, list, b, e)
  {
    hide EntryOf, CreditOf;
    forall i | |b.journal| <= i < |e.journal| ensures EntryFrom(list, user, e.journal[i]) {
      if i < |c.journal| { assert e.journal[i] == c.journal[i]; }
    }
    var x, y, z := PurseOf(b, user).ledger, PurseOf(c, user).ledger, PurseOf(e, user).ledger;
    forall i | |x| <= i < |z| ensures CreditFrom(cfg, list, z[i]) {
      if i < |y| { assert z[i] == y[i]; }
    }
  }

  lemma {:induction false} StemsSelf(cfg: Config, user: User, list: seq<Payment>, b: Books)
    ensures Stems(cfg, user, list, b, b)
  {
  }

  lemma {:induction false} PassStems(cfg: Config, b: Books, now: int, user: User, list: seq<Payment>, limit: nat)
    ensures Stems(cfg, user, list, b, Pass(cfg, b, now, user, list, limit).books)
    decreases |list|
  {
    hide Stems, Apply;
    StemsSelf(cfg, user, list, b);
    if list != [] && limit > 0 {
      var (c, r) := Apply(cfg, b, now, user, list[0]);
      ApplyStems(cfg, b, now, user, list[0]);
      PassStems(cfg, c, now, user, list[1..], limit - 1);
      StemsTrans(cfg, user, [list[0]], list[1..], list, b, c, Pass(cfg, c, now, user, list[1..], limit - 1).books);
    }
  }

  // ---- callbacks ----

  /** Some callback met an item that was paid and fresh at its time, and that stands for this payment. */
  ghost predicate PaidFor(rules: Rules, data: seq<Item>, tries: seq<Attempt>, p: Payment) {
    exists t, i :: 0 <= t < |tries| && 0 <= i < |data| && PaidAt(rules, data[i], tries[t], p)
  }

  predicate PaidAt(rules: Rules, item: Item, t: Attempt, p: Payment) {
    Qualifies(rules, t.at, item) && StandsFor(rules, item, p)
  }

  ghost predicate EntryPaid(rules: Rules, data: seq<Item>, tries: seq<Attempt>, user: User, e: Event) {
    exists p :: PaidFor(rules, data, tries, p) && EntryOf(p, user, e)
  }

  ghost predicate CreditPaid(cfg: Config, rules: Rules, data: seq<Item>, tries: seq<Attempt>, row: Row) {
    exists p :: PaidFor(rules, data, tries, p) && CreditOf(cfg, p, row)
  }

  /** Every new journal row and every new ledger row of the user stems from an item that was paid and fresh
      when a callback saw it, the ledger row with the amount the server-side maps give its product; no other
      wallet changed. */
  ghost predicate OnlyPaid(cfg: Config, rules: Rules, user: User, data: seq<Item>, tries: seq<Attempt>, b: Books,
                           c: Books) {
    && b.journal <= c.journal && PurseOf(b, user).ledger <= PurseOf(c, user).ledger
    && (forall i :: |b.journal| <= i < |c.journal| ==> EntryPaid(rules, data, tries, user, c.journal[i]))
    && (forall i :: |PurseOf(b, user).ledger| <= i < |PurseOf(c, user).ledger| ==>
          CreditPaid(cfg, rules, data, tries, PurseOf(c, user).ledger[i]))
    && (forall v: User :: v != user ==> PurseOf(c, v) == PurseOf(b, v))
  }

  /** Nothing is credited but what was paid, over any callbacks, broken off or not. */
  lemma {:induction false} OnlyPaidIsCredited(cfg: Config, rules: Rules, b: Books, user: User, data: seq<Item>,
                                              tries: seq<Attempt>)
    ensures OnlyPaid(cfg, rules, user, data, tries, b, Callbacks(cfg, rules, b, user, data, tries))
  {
    hide OnlyPaid, Stems, PaidFor, Seen, Callbacks;
    CallbacksStem(cfg, rules, b, user, data, tries);
    forall p | p in Seen(rules, data, tries) ensures PaidFor(rules, data, tries, p) { SeenPaid(rules, data, tries, p); }
    StemsPaid(cfg, rules, user, data, tries, Seen(rules, data, tries), b, Callbacks(cfg, rules, b, user, data, tries));
  }

  lemma {:induction false} StemsPaid(cfg: Config, rules: Rules, user: User, data: seq<Item>, tries: seq<Attempt>,
                                     list: seq<Payment>, b: Books, c: Books)
    requires Stems(cfg, user, list, b, c) && forall p :: p in list ==> PaidFor(rules, data, tries, p)
    ensures OnlyPaid(cfg, rules, user, data, tries, b, c)
  {
    hide EntryOf, CreditOf, PaidFor;
  }

  /** Everything the callbacks selected. */
  function Seen(rules: Rules, data: seq<Item>, tries: seq<Attempt>): seq<Payment> {
    if tries == [] then []
    else Seen(rules, data, tries[..|tries| - 1]) + Select(rules, tries[|tries| - 1].at, data)
  }

  lemma {:induction false} SeenPaid(rules: Rules, data: seq<Item>, tries: seq<Attempt>, p: Payment)
    requires p in Seen(rules, data, tries)
    ensures PaidFor(rules, data, tries, p)
  {
    hide Qualifies, StandsFor, Select;
    var n := |tries| - 1;
    if p in Select(rules, tries[n].at, data) {
      SelectedExactly(rules, tries[n].at, data, p);
      var i :| 0 <= i < |data| && Qualifies(rules, tries[n].at, data[i]) && StandsFor(rules, data[i], p);
      assert PaidAt(rules, data[i], tries[n], p);
    } else {
      SeenPaid(rules, data, tries[..n], p);
      var t, i :| 0 <= t < n && 0 <= i < |data| && PaidAt(rules, data[i], tries[..n][t], p);
      assert PaidAt(rules, data[i], tries[t], p);
    }
  }

  lemma {:induction false} CallbacksStem(cfg: Config, rules: Rules, b: Books, user: User, data: seq<Item>,
                                         tries: seq<Attempt>)
    ensures Stems(cfg, user, Seen(rules, data, tries), b, Callbacks(cfg, rules, b, user, data, tries))
  {
    hide Stems, Pass, Select;
    if tries == [] {
      StemsSelf(cfg, user, [], b);
    } else {
      var n := |tries| - 1;
      var before := Callbacks(cfg, rules, b, user, data, tries[..n]);
      var list := Select(rules, tries[n].at, data);
      CallbacksStem(cfg, rules, b, user, data, tries[..n]);
      PassStems(cfg, before, tries[n].at, user, list, tries[n].limit);
      StemsTrans(cfg, user, Seen(rules, data, tries[..n]), list, Seen(rules, data, tries), b, before,
                 Callbacks(cfg, rules, b, user, data, tries));
    }
  }

  // ---- and all of it ----

  lemma {:induction false} ApplyCredits(cfg: Config, b: Books, now: int, user: User, p: Payment, amount: int)
    requires Worth(cfg, p, amount) && !Apply(cfg, b, now, user, p).1.Failed?
    ensures Journaled(Apply(cfg, b, now, user, p).0.journal, p.id)
  {
    hide Grant;
    var c := Apply(cfg, b, now, user, p).0;
    if Apply(cfg, b, now, user, p).1.Credited? { assert c.journal[|b.journal|].id == p.id; }
  }

  lemma {:induction false} JournalStays(cfg: Config, user: User, list: seq<Payment>, b: Books, c: Books, id: string)
    requires Stems(cfg, user, list, b, c) && Journaled(b.journal, id)
    ensures Journaled(c.journal, id)
  {
    hide EntryOf, CreditOf;
    var i :| 0 <= i < |b.journal| && b.journal[i].id == id;
    assert c.journal[i].id == id;
  }

  lemma {:induction false} PassCredits(cfg: Config, b: Books, now: int, user: User, list: seq<Payment>, limit: nat,
                                       p: Payment, amount: int)
    requires Pass(cfg, b, now, user, list, limit).done && p in list && Worth(cfg, p, amount)
    ensures Journaled(Pass(cfg, b, now, user, list, limit).books.journal, p.id)
    decreases |list|
  {
    hide Apply, Journaled, Stems;
    var (c, r) := Apply(cfg, b, now, user, list[0]);
    if list[0] == p {
      ApplyCredits(cfg, b, now, user, p, amount);
      PassStems(cfg, c, now, user, list[1..], limit - 1);
      JournalStays(cfg, user, list[1..], c, Pass(cfg, c, now, user, list[1..], limit - 1).books, p.id);
    } else {
      PassCredits(cfg, c, now, user, list[1..], limit - 1, p, amount);
    }
  }

  /** What was paid is credited: a callback that completes has every paid, fresh item of a product that is
      worth something in the journal, and with it, by the bijection, in a ledger. */
  lemma {:induction false} PaidIsCredited(cfg: Config, rules: Rules, b: Books, user: User, data: seq<Item>, now: int,
                                          i: nat, p: Payment, amount: int)
    requires BooksInv(b) && i < |data| && Qualifies(rules, now, data[i]) && StandsFor(rules, data[i], p)
    requires Worth(cfg, p, amount)
    requires var list := Select(rules, now, data); Pass(cfg, b, now, user, list, |list|).done
    ensures var list := Select(rules, now, data);
            var c := Pass(cfg, b, now, user, list, |list|).books;
            exists v: User :: HasEvent(c.journal, p.id, v) && Named("cp-txn:" + p.id) in Keys(PurseOf(c, v).ledger)
  {
    hide Pass, Select, Qualifies, StandsFor, Keys, Sound;
    var list := Select(rules, now, data);
    SelectedExactly(rules, now, data, p);
    PassCredits(cfg, b, now, user, list, |list|, p, amount);
    PassKeepsBooks(cfg, b, now, user, list, |list|);
    var c := Pass(cfg, b, now, user, list, |list|).books;
    var j :| 0 <= j < |c.journal| && c.journal[j].id == p.id;
    assert HasCredit(c, c.journal[j]);
    assert HasEvent(c.journal, p.id, c.journal[j].user);
  }

  lemma {:induction false} PassKeepsBooks(cfg: Config, b: Books, now: int, user: User, list: seq<Payment>, limit: nat)
    requires BooksInv(b)
    ensures BooksInv(Pass(cfg, b, now, user, list, limit).books)
    decreases |list|
  {
    hide Apply, BooksInv;
    if list != [] && limit > 0 {
      ApplyKeepsBijection(cfg, b, now, user, list[0]);
      PassKeepsBooks(cfg, Apply(cfg, b, now, user, list[0]).0, now, user, list[1..], limit - 1);
    }
  }
}
