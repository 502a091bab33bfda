/** The expiry a CloudPayments delivery leaves: it is overwritten, and may become earlier. */
module SubscriptionExpiry {
  import opened Wallet
  import opened CloudPayments

  /** Crediting a payment makes a known expiry earlier exactly when it is a subscription payment of a
      positive amount, not journaled before, whose product buys an earlier date than is stored. */
  lemma {:induction false} ExpiryShortens(cfg: Config, b: Books, now: int, user: User, p: Payment)
    requires BooksInv(b) && user in b.plans
    ensures var c := Apply(cfg, b, now, user, p).0;
            && user in c.plans
            && (c.plans[user].expiresAt < b.plans[user].expiresAt <==>
                  && p.kind.Subscription? && Credits(cfg, p).value > 0
                  && !Journaled(b.journal, p.id)
                  && cfg.expiry(now, p.code) < b.plans[user].expiresAt)
  {
    ApplyKeepsBijection(cfg, b, now, user, p);
    hide Grant, BooksInv;
    if Apply(cfg, b, now, user, p).1.Credited? {
      GrantNeedsAmount(PurseOf(b, user), CreditKey(p.id), Credits(cfg, p).value);
    }
  }

  // ---- a whole delivery ----

  /** The books after the first `n` payments, one transaction each. */
  function After(cfg: Config, b: Books, now: int, user: User, list: seq<Payment>, n: nat): Books
    requires n <= |list|
  {
    if n == 0 then b else Apply(cfg, After(cfg, b, now, user, list, n - 1), now, user, list[n - 1]).0
  }

  /** How many payments a delivery handles: it stops at `limit` (a crash) and at a stuck payment. */
  ghost function Reach(cfg: Config, journal: seq<Event>, list: seq<Payment>, limit: nat, i: nat): (n: nat)
    requires i <= |list| && i <= limit
    ensures i <= n <= |list| && n <= limit
    ensures forall j :: i <= j < n ==> !Stuck(cfg, journal, list, j)
    ensures n < |list| && n < limit ==> Stuck(cfg, journal, list, n)
    decreases |list| - i
  {
    if i == |list| || i == limit || Stuck(cfg, journal, list, i) then i
    else Reach(cfg, journal, list, limit, i + 1)
  }

  /** The delivery credits payment `i`: payable, not journaled before, the first of its id to be so. */
  ghost predicate Enters(cfg: Config, journal: seq<Event>, list: seq<Payment>, i: nat)
    requires i < |list|
  {
    && Payable(cfg, list[i])
    && !Journaled(journal, list[i].id)
    && forall j :: 0 <= j < i ==> !(list[j].id == list[i].id && Payable(cfg, list[j]))
  }

  /** The last subscription payment credited among the first `n`. */
  ghost function Decider(cfg: Config, journal: seq<Event>, list: seq<Payment>, n: nat): (r: Option<nat>)
    requires n <= |list|
    ensures r.Some? ==> r.value < n && Enters(cfg, journal, list, r.value) && list[r.value].kind.Subscription?
    ensures forall i :: (if r.Some? then r.value + 1 else 0) <= i < n ==>
              !(Enters(cfg, journal, list, i) && list[i].kind.Subscription?)
  {
    if n == 0 then None
    else if Enters(cfg, journal, list, n - 1) && list[n - 1].kind.Subscription? then Some(n - 1)
    else Decider(cfg, journal, list, n - 1)
  }

  ghost predicate EarlierPays(cfg: Config, list: seq<Payment>, id: string, n: nat)
    requires n <= |list|
  {
    exists j :: 0 <= j < n && list[j].id == id && Payable(cfg, list[j])
  }

  /** Before a stuck payment is met, a payment is journaled iff it was or an earlier one of its id paid. */
  lemma {:induction false} AfterJournals(cfg: Config, b: Books, now: int, user: User, list: seq<Payment>, n: nat)
    requires BooksInv(b) && n <= |list| && forall i :: 0 <= i < n ==> !Stuck(cfg, b.journal, list, i)
    ensures BooksInv(After(cfg, b, now, user, list, n))
    ensures forall q: Payment :: Journaled(After(cfg, b, now, user, list, n).journal, q.id) <==>
              Journaled(b.journal, q.id) || EarlierPays(cfg, list, q.id, n)
  {
    hide Apply, BooksInv, Journaled, Credits;
    if n > 0 {
      var p := list[n - 1];
      AfterJournals(cfg, b, now, user, list, n - 1);
      var before := After(cfg, b, now, user, list, n - 1);
      ApplyKeepsBijection(cfg, before, now, user, p);
      assert !Stuck(cfg, b.journal, list, n - 1);
      forall q: Payment
        ensures Journaled(After(cfg, b, now, user, list, n).journal, q.id) <==>
                Journaled(b.journal, q.id) || EarlierPays(cfg, list, q.id, n)
      {
        ApplyJournals(cfg, before, now, user, p, q);
      }
    }
  }

  /** Payment `n` is credited in its turn iff it enters, and fails iff it is stuck. */
  lemma {:induction false} InItsTurn(cfg: Config, b: Books, now: int, user: User, list: seq<Payment>, n: nat)
    requires BooksInv(b) && n < |list| && forall i :: 0 <= i < n ==> !Stuck(cfg, b.journal, list, i)
    ensures var r := Apply(cfg, After(cfg, b, now, user, list, n), now, user, list[n]).1;
            (r.Credited? <==> Enters(cfg, b.journal, list, n)) && (r.Failed? <==> Stuck(cfg, b.journal, list, n))
  {
    hide BooksInv, Grant, Journaled, Credits;
    var before := After(cfg, b, now, user, list, n);
    AfterJournals(cfg, b, now, user, list, n);
    ApplyKeepsBijection(cfg, before, now, user, list[n]);
    if Apply(cfg, before, now, user, list[n]).1.Credited? {
      GrantNeedsAmount(PurseOf(before, user), CreditKey(list[n].id), Credits(cfg, list[n]).value);
    }
  }

  lemma {:induction false} AfterPlan(cfg: Config, b: Books, now: int, user: User, list: seq<Payment>, n: nat)
    requires BooksInv(b) && n <= |list| && forall i :: 0 <= i < n ==> !Stuck(cfg, b.journal, list, i)
    ensures var c := After(cfg, b, now, user, list, n);
            c.plans == match Decider(cfg, b.journal, list, n)
                       case None => b.plans
                       case Some(i) => b.plans[user := Plan(list[i].code, cfg.expiry(now, list[i].code))]
  {
    hide BooksInv, Grant, Stuck, Enters, Journaled;
    if n > 0 {
      AfterPlan(cfg, b, now, user, list, n - 1);
      InItsTurn(cfg, b, now, user, list, n - 1);
    }
  }

  lemma {:induction false} PassIsAfter(cfg: Config, b: Books, now: int, user: User, list: seq<Payment>, limit: nat,
                                       i: nat)
    requires BooksInv(b) && i <= |list| && i <= limit && forall j :: 0 <= j < i ==> !Stuck(cfg, b.journal, list, j)
    ensures Pass(cfg, After(cfg, b, now, user, list, i), now, user, list[i..], limit - i).books ==
            After(cfg, b, now, user, list, Reach(cfg, b.journal, list, limit, i))
    decreases |list| - i
  {
    hide Apply, BooksInv, Stuck;
    if i < |list| && i < limit {
      InItsTurn(cfg, b, now, user, list, i);
      FailedLeaves(cfg, After(cfg, b, now, user, list, i), now, user, list[i]);
      assert list[i..][0] == list[i] && list[i..][1..] == list[i + 1..];
      if !Stuck(cfg, b.journal, list, i) { PassIsAfter(cfg, b, now, user, list, limit, i + 1); }
    }
  }

  lemma {:induction false} FailedLeaves(cfg: Config, b: Books, now: int, user: User, p: Payment)
    ensures Apply(cfg, b, now, user, p).1.Failed? ==> Apply(cfg, b, now, user, p).0 == b
  {
    hide Grant;
  }

  /** The plan a delivery leaves, complete or not, is that of the last subscription payment it credits
      among those it handles; without one, every plan stays as it was. */
  lemma {:induction false} DeliveryDecidesPlan(cfg: Config, b: Books, now: int, user: User, list: seq<Payment>,
                                               limit: nat)
    requires BooksInv(b)
    ensures Pass(cfg, b, now, user, list, limit).books.plans ==
            match Decider(cfg, b.journal, list, Reach(cfg, b.journal, list, limit, 0))
            case None => b.plans
            case Some(i) => b.plans[user := Plan(list[i].code, cfg.expiry(now, list[i].code))]
  {
    hide Pass, BooksInv, Decider;
    PassIsAfter(cfg, b, now, user, list, limit, 0);
    AfterPlan(cfg, b, now, user, list, Reach(cfg, b.journal, list, limit, 0));
    assert list[0..] == list;
  }

  /** A delivery leaves an earlier expiry than it found exactly when that last payment buys one. */
  lemma {:induction false} DeliveryShortens(cfg: Config, b: Books, now: int, user: User, list: seq<Payment>, limit: nat)
    requires BooksInv(b) && user in b.plans
    ensures var n := Reach(cfg, b.journal, list, limit, 0);
            var plans := Pass(cfg, b, now, user, list, limit).books.plans;
            && user in plans
            && (plans[user].expiresAt < b.plans[user].expiresAt <==>
                  exists i :: 0 <= i < n
                    && Enters(cfg, b.journal, list, i) && list[i].kind.Subscription?
                    && cfg.expiry(now, list[i].code) < b.plans[user].expiresAt
                    && forall j :: i < j < n ==> !(Enters(cfg, b.journal, list, j) && list[j].kind.Subscription?))
  {
    hide Pass, BooksInv, Enters, Stuck;
    DeliveryDecidesPlan(cfg, b, now, user, list, limit);
    var n := Reach(cfg, b.journal, list, limit, 0);
    var decider := Decider(cfg, b.journal, list, n);
    forall i | 0 <= i < n && Enters(cfg, b.journal, list, i) && list[i].kind.Subscription?
               && forall j :: i < j < n ==> !(Enters(cfg, b.journal, list, j) && list[j].kind.Subscription?)
      ensures decider == Some(i)
    {
    }
  }

  // ---- an example ----

  function YearOrWeek(now: int, code: string): int { now + if code == "year" then 365 else 7 }

  const SHOP := Config(map[], map[], 100, YearOrWeek)
  const EMPTY := Books([], map[], map[])
  const YEAR := Payment("a", "year", Subscription)
  const WEEK := Payment("b", "week", Subscription)

  lemma {:induction false} EmptyBooks()
    ensures BooksInv(EMPTY)
  {
  }

  lemma {:induction false} BothEnter(list: seq<Payment>)
    requires list == [YEAR] || list == [YEAR, WEEK]
    ensures forall i :: 0 <= i < |list| ==> Enters(SHOP, [], list, i) && !Stuck(SHOP, [], list, i)
    ensures Reach(SHOP, [], list, |list|, 0) == |list|
  {
    assert !Journaled([], "a") && !Journaled([], "b");
    assert YEAR.id != WEEK.id;
  }

  /** A year bought first and a week bought with it: one delivery ends the subscription in a week, and
      the same week, delivered a day after the year, takes 357 days away. */
  lemma {:induction false} ExpiryCanShorten()
    ensures var one := Pass(SHOP, EMPTY, 0, 0, [YEAR], 1).books;
            && BooksInv(one)
            && one.plans == map[0 := Plan("year", 365)]
            && Pass(SHOP, EMPTY, 0, 0, [YEAR, WEEK], 2).books.plans == map[0 := Plan("week", 7)]
            && Apply(SHOP, one, 1, 0, WEEK).0.plans == map[0 := Plan("week", 8)]
  {
    hide Pass, Decider, Apply, BooksInv, Enters, Stuck, Journaled, YearOrWeek;
    EmptyBooks();
    BothEnter([YEAR]);
    BothEnter([YEAR, WEEK]);
    DeliveryDecidesPlan(SHOP, EMPTY, 0, 0, [YEAR], 1);
    DeliveryDecidesPlan(SHOP, EMPTY, 0, 0, [YEAR, WEEK], 2);
    assert Decider(SHOP, [], [YEAR], 1) == Some(0) && Decider(SHOP, [], [YEAR, WEEK], 2) == Some(1);
    assert YearOrWeek(0, "year") == 365 && YearOrWeek(0, "week") == 7 && YearOrWeek(1, "week") == 8 by { Prices(); }
    assert [YEAR][0..] == [YEAR];
    PassIsAfter(SHOP, EMPTY, 0, 0, [YEAR], 1, 0);
    WeekLater();
  }

  lemma {:induction false} Prices()
    ensures YearOrWeek(0, "year") == 365 && YearOrWeek(0, "week") == 7 && YearOrWeek(1, "week") == 8
  {
    assert "week"[0] == 'w' && "year"[0] == 'y';
  }

  lemma {:induction false} WeekLater()
    ensures var one := After(SHOP, EMPTY, 0, 0, [YEAR], 1);
            && BooksInv(one)
            && Apply(SHOP, one, 1, 0, WEEK).0.plans == one.plans[0 := Plan("week", YearOrWeek(1, "week"))]
  {
    hide BooksInv, YearOrWeek, Grant, Stuck, Journaled;
    EmptyBooks();
    BothEnter([YEAR]);
    AfterJournals(SHOP, EMPTY, 0, 0, [YEAR], 1);
    var one := After(SHOP, EMPTY, 0, 0, [YEAR], 1);
    assert !Journaled(one.journal, WEEK.id) by { NotYet(); }
    InItsTurn(SHOP, one, 1, 0, [WEEK], 0);
  }

  lemma {:induction false} NotYet()
    ensures !Journaled([], WEEK.id) && !EarlierPays(SHOP, [YEAR], WEEK.id, 1)
  {
    assert YEAR.id[0] == 'a' && WEEK.id[0] == 'b';
  }
}
