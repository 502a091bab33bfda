/** Crediting of verified CloudPayments payments: one transaction per payment, safe to redeliver. */
module CloudPayments {
  import opened Wallet
  import opened Strings

  type User = nat

  datatype Kind = OneTime | Subscription | UnknownType
  datatype Payment = Payment(id: string, code: string, kind: Kind)

  /** Server-side maps and the expiry a product buys when it is credited at a given time. */
  datatype Config = Config(
    tokens: map<string, int>,
    subscriptionTokens: map<string, int>,
    subscriptionDefault: int,
    expiry: (int, string) -> int)

  datatype Event = Event(id: string, user: User, code: string, kind: Kind)
  datatype Plan = Plan(code: string, expiresAt: int)

  /** The journal `cloudpayments_webhook_events`, the wallets and the subscriptions. */
  datatype Books = Books(journal: seq<Event>, purses: map<User, Purse>, plans: map<User, Plan>)

  datatype Result = Skipped | Duplicate | Credited | Failed

  function PurseOf(b: Books, u: User): Purse {
    if u in b.purses then b.purses[u] else Purse(0, [])
  }

  function CreditKey(id: string): Key { Named("cp-txn:" + id) }

  predicate Journaled(journal: seq<Event>, id: string) {
    exists i :: 0 <= i < |journal| && journal[i].id == id
  }

  /** Amounts come from the server-side maps only; `None` is a payment that is skipped. */
  function Credits(cfg: Config, p: Payment): Option<int> {
    match p.kind
    case UnknownType => None
    case OneTime =>
      if p.code in cfg.tokens && cfg.tokens[p.code] > 0 then Some(cfg.tokens[p.code]) else None
    case Subscription =>
      if p.code in cfg.subscriptionTokens && cfg.subscriptionTokens[p.code] != 0
      then Some(cfg.subscriptionTokens[p.code])
      else Some(cfg.subscriptionDefault)
  }

  /** One payment in its own transaction: journal row, subscription, credit, or nothing of it. */
  function Apply(cfg: Config, b: Books, now: int, user: User, p: Payment): (Books, Result) {
    match Credits(cfg, p)
    case None => (b, Skipped)
    case Some(credits) =>
      if Journaled(b.journal, p.id) then (b, Duplicate)
      else
        var (purse, v) := Grant(PurseOf(b, user), CreditKey(p.id), credits);
        if !v.Ok() then (b, Failed)
        else
          (Books(b.journal + [Event(p.id, user, p.code, p.kind)],
                 b.purses[user := purse],
                 if p.kind.Subscription? then b.plans[user := Plan(p.code, cfg.expiry(now, p.code))] else b.plans),
           Credited)
  }

  datatype PassResult = PassResult(books: Books, credited: nat, done: bool)

  /** One callback: the payments in list order, up to an exception or a crash after `limit` of them. */
  function Pass(cfg: Config, b: Books, now: int, user: User, list: seq<Payment>, limit: nat): PassResult
    decreases |list|
  {
    if list == [] then PassResult(b, 0, true)
    else if limit == 0 then PassResult(b, 0, false)
    else
      var (c, r) := Apply(cfg, b, now, user, list[0]);
      if r.Failed? then PassResult(b, 0, false)
      else
        var rest := Pass(cfg, c, now, user, list[1..], limit - 1);
        rest.(credited := rest.credited + if r.Credited? then 1 else 0)
  }

  // ---- the journal and the credits stay in bijection ----

  ghost predicate UniqueIds(journal: seq<Event>) {
    forall i, j :: 0 <= i < j < |journal| ==> journal[i].id != journal[j].id
  }

  ghost predicate HasCredit(b: Books, e: Event) { CreditKey(e.id) in Keys(PurseOf(b, e.user).ledger) }

  ghost predicate HasEvent(journal: seq<Event>, id: string, u: User) {
    exists i :: 0 <= i < |journal| && journal[i].id == id && journal[i].user == u
  }

  ghost predicate Bijection(b: Books) {
    && UniqueIds(b.journal)
    && (forall i :: 0 <= i < |b.journal| ==> HasCredit(b, b.journal[i]))
    && (forall u: User, id :: CreditKey(id) in Keys(PurseOf(b, u).ledger) ==> HasEvent(b.journal, id, u))
  }

  ghost predicate BooksInv(b: Books) {
    Bijection(b) && forall u: User :: Sound(PurseOf(b, u))
  }

  lemma {:induction false} CreditKeyInjective(a: string, b: string)
    requires CreditKey(a) == CreditKey(b)
    ensures a == b
  {
    assert ("cp-txn:" + a)[7..] == a;
    assert ("cp-txn:" + b)[7..] == b;
  }

  lemma {:induction false} GrantKeys(p: Purse, key: Key, amount: int)
    requires Sound(p)
    ensures var (q, v) := Grant(p, key, amount);
            v.Ok() ==> Sound(q) && Keys(q.ledger) == Keys(p.ledger) + {key}
  {
    hide Sound, UniqueKeys, Net;
    PerformSound(p, Op(Credit, key, amount));
    FindAppend(p.ledger, Row(key, Credit, amount), key);
    if Find(p.ledger, key).Some? { assert Keys(p.ledger) + {key} == Keys(p.ledger); }
  }

  function Entered(b: Books, user: User, e: Event, purse: Purse, plans: map<User, Plan>): Books {
    Books(b.journal + [e], b.purses[user := purse], plans)
  }

  lemma {:induction false} HasEventSnoc(journal: seq<Event>, e: Event, id: string, u: User)
    ensures HasEvent(journal + [e], id, u) <==> HasEvent(journal, id, u) || (e.id == id && e.user == u)
  {
    if HasEvent(journal, id, u) {
      var i :| 0 <= i < |journal| && journal[i].id == id && journal[i].user == u;
      assert (journal + [e])[i] == journal[i];
    }
    assert (journal + [e])[|journal|] == e;
  }

  /** A new journal row together with its credit. */
  lemma {:induction false} EntryKeepsBijection(b: Books, user: User, e: Event, purse: Purse, plans: map<User, Plan>)
    requires Bijection(b) && !Journaled(b.journal, e.id) && e.user == user
    requires Keys(purse.ledger) == Keys(PurseOf(b, user).ledger) + {CreditKey(e.id)}
    ensures Bijection(Entered(b, user, e, purse, plans))
  {
    hide Keys, CreditKey, HasEvent;
    var c := Entered(b, user, e, purse, plans);
    assert forall u: User :: PurseOf(c, u) == if u == user then purse else PurseOf(b, u);
    assert UniqueIds(c.journal) by { assert forall i :: 0 <= i < |b.journal| ==> b.journal[i].id != e.id; }
    hide UniqueIds, Journaled, PurseOf;
    forall i | 0 <= i < |c.journal| ensures HasCredit(c, c.journal[i]) {
      if i < |b.journal| { assert c.journal[i] == b.journal[i] && HasCredit(b, b.journal[i]); }
    }
    forall u: User, id | CreditKey(id) in Keys(PurseOf(c, u).ledger) ensures HasEvent(c.journal, id, u) {
      HasEventSnoc(b.journal, e, id, u);
      if u == user && CreditKey(id) == CreditKey(e.id) { CreditKeyInjective(id, e.id); }
    }
  }

  /** Every commit keeps journal rows and `cp-txn:` credits one to one, and every wallet sound; a
      payment fails exactly when its amount is not positive. */
  lemma {:induction false} ApplyKeepsBijection(cfg: Config, b: Books, now: int, user: User, p: Payment)
    requires BooksInv(b)
    ensures var (c, r) := Apply(cfg, b, now, user, p);
            && BooksInv(c)
            && (r.Failed? <==> Credits(cfg, p).Some? && Credits(cfg, p).value <= 0 && !Journaled(b.journal, p.id))
            && (r.Credited? ==> PurseOf(c, user).balance == PurseOf(b, user).balance + Credits(cfg, p).value)
  {
    hide Sound, Keys, Find, Bijection, CreditKey, Credits;
    var (c, r) := Apply(cfg, b, now, user, p);
    if Credits(cfg, p).Some? && !Journaled(b.journal, p.id) {
      hide Journaled;
      var credits := Credits(cfg, p).value;
      NotCredited(b, user, p.id);
      GrantKeys(PurseOf(b, user), CreditKey(p.id), credits);
      if r.Credited? {
        var purse := Grant(PurseOf(b, user), CreditKey(p.id), credits).0;
        EntryKeepsBijection(b, user, Event(p.id, user, p.code, p.kind), purse, c.plans);
        assert forall u: User :: PurseOf(c, u) == if u == user then purse else PurseOf(b, u);
      }
    }
  }

  lemma {:induction false} NotCredited(b: Books, u: User, id: string)
    requires Bijection(b) && !Journaled(b.journal, id)
    ensures Find(PurseOf(b, u).ledger, CreditKey(id)).None?
  {
    hide Keys, Find;
    assert forall i :: 0 <= i < |b.journal| ==> b.journal[i].id != id;
    assert CreditKey(id) !in Keys(PurseOf(b, u).ledger);
  }

  // ---- crash and redelivery ----

  /** Everything but the expiry dates, which depend on when a payment was credited. */
  ghost predicate Same(b: Books, c: Books) {
    && b.journal == c.journal
    && b.purses == c.purses
    && b.plans.Keys == c.plans.Keys
    && forall u :: u in b.plans ==> b.plans[u].code == c.plans[u].code
  }

  lemma {:induction false} ApplySame(cfg: Config, b: Books, c: Books, now: int, later: int, user: User, p: Payment)
    requires Same(b, c)
    ensures Apply(cfg, b, now, user, p).1 == Apply(cfg, c, later, user, p).1
    ensures Same(Apply(cfg, b, now, user, p).0, Apply(cfg, c, later, user, p).0)
  {
    hide Grant;
  }

  lemma {:induction false} PassSame(cfg: Config, b: Books, c: Books, now: int, later: int, user: User,
                                    list: seq<Payment>, limit: nat)
    requires Same(b, c)
    ensures var x, y := Pass(cfg, b, now, user, list, limit), Pass(cfg, c, later, user, list, limit);
            Same(x.books, y.books) && x.credited == y.credited && x.done == y.done
    decreases |list|
  {
    hide Apply, Same;
    if list != [] && limit > 0 {
      ApplySame(cfg, b, c, now, later, user, list[0]);
      if !Apply(cfg, b, now, user, list[0]).1.Failed? {
        PassSame(cfg, Apply(cfg, b, now, user, list[0]).0, Apply(cfg, c, later, user, list[0]).0, now, later, user,
                 list[1..], limit - 1);
      }
    }
  }

  lemma {:induction false} JournaledGrows(a: seq<Event>, b: seq<Event>, id: string)
    requires a <= b && Journaled(a, id)
    ensures Journaled(b, id)
  {
    var i :| 0 <= i < |a| && a[i].id == id;
    assert b[i].id == id;
  }

  lemma {:induction false} PassGrows(cfg: Config, b: Books, now: int, user: User, list: seq<Payment>, limit: nat)
    ensures b.journal <= Pass(cfg, b, now, user, list, limit).books.journal
    decreases |list|
  {
    if list != [] && limit > 0 {
      PassGrows(cfg, Apply(cfg, b, now, user, list[0]).0, now, user, list[1..], limit - 1);
    }
  }

  /** A payment that did not fail is left alone by any later delivery. */
  lemma {:induction false} Redo(cfg: Config, b: Books, now: int, user: User, p: Payment, c: Books, later: int)
    requires !Apply(cfg, b, now, user, p).1.Failed? && Apply(cfg, b, now, user, p).0.journal <= c.journal
    ensures Apply(cfg, c, later, user, p).0 == c
    ensures !Apply(cfg, c, later, user, p).1.Failed? && !Apply(cfg, c, later, user, p).1.Credited?
  {
    hide Grant;
    var d := Apply(cfg, b, now, user, p).0;
    if Credits(cfg, p).Some? {
      if !Journaled(b.journal, p.id) { assert d.journal[|b.journal|].id == p.id; }
      JournaledGrows(d.journal, c.journal, p.id);
    }
  }

  /** A pass that died anywhere, then a full pass: as if only a full pass had run. */
  lemma {:induction false} CrashThenFull(cfg: Config, b: Books, c: Books, now: int, later: int, clean: int, user: User,
                                         list: seq<Payment>, limit: nat)
    requires Same(b, c)
    ensures var broken := Pass(cfg, b, now, user, list, limit).books;
            var x, y := Pass(cfg, broken, later, user, list, |list|), Pass(cfg, c, clean, user, list, |list|);
            Same(x.books, y.books) && x.done == y.done
    decreases |list|
  {
    hide Apply, Same;
    if list != [] && limit > 0 {
      var p := list[0];
      var (d, r) := Apply(cfg, b, now, user, p);
      if r.Failed? {
        PassSame(cfg, b, c, later, clean, user, list, |list|);
      } else {
        var broken := Pass(cfg, b, now, user, list, limit).books;
        assert broken == Pass(cfg, d, now, user, list[1..], limit - 1).books;
        ApplySame(cfg, b, c, now, clean, user, p);
        PassGrows(cfg, d, now, user, list[1..], limit - 1);
        Redo(cfg, b, now, user, p, broken, later);
        CrashThenFull(cfg, d, Apply(cfg, c, clean, user, p).0, now, later, clean, user, list[1..], limit - 1);
      }
    } else {
      PassSame(cfg, b, c, later, clean, user, list, |list|);
    }
  }

  datatype Attempt = Attempt(at: int, limit: nat)

  /** Deliveries of one payment list, each dying after some number of payments. */
  function Attempts(cfg: Config, b: Books, user: User, list: seq<Payment>, tries: seq<Attempt>): Books {
    if tries == [] then b
    else
      var n := |tries| - 1;
      Pass(cfg, Attempts(cfg, b, user, list, tries[..n]), tries[n].at, user, list, tries[n].limit).books
  }

  /** Convergence: after any pattern of failed deliveries, one full delivery gives the journal, the
      credits and the plans of a single clean delivery. */
  lemma {:induction false} RedeliveryConverges(cfg: Config, b: Books, user: User, list: seq<Payment>,
                                               tries: seq<Attempt>, later: int, clean: int)
    ensures var x, y := Pass(cfg, Attempts(cfg, b, user, list, tries), later, user, list, |list|),
                        Pass(cfg, b, clean, user, list, |list|);
            Same(x.books, y.books) && x.done == y.done
  {
    hide Pass;
    if tries == [] {
      PassSame(cfg, b, b, later, clean, user, list, |list|);
    } else {
      var n := |tries| - 1;
      var before := Attempts(cfg, b, user, list, tries[..n]);
      RedeliveryConverges(cfg, b, user, list, tries[..n], later, clean);
      CrashThenFull(cfg, before, before, tries[n].at, later, later, user, list, tries[n].limit);
      SameTrans(Pass(cfg, Attempts(cfg, b, user, list, tries), later, user, list, |list|).books,
                Pass(cfg, before, later, user, list, |list|).books, Pass(cfg, b, clean, user, list, |list|).books);
    }
  }

  lemma {:induction false} SameTrans(a: Books, b: Books, c: Books)
    requires Same(a, b) && Same(b, c)
    ensures Same(a, c)
  {
  }

  /** A further delivery changes nothing at all, expiry dates included, and credits nothing. */
  lemma {:induction false} FurtherPassIsIdle(cfg: Config, b: Books, now: int, later: int, user: User,
                                             list: seq<Payment>, c: Books)
    requires Pass(cfg, b, now, user, list, |list|).done
    requires Pass(cfg, b, now, user, list, |list|).books.journal <= c.journal
    ensures Pass(cfg, c, later, user, list, |list|) == PassResult(c, 0, true)
    decreases |list|
  {
    hide Apply;
    if list != [] {
      var d := Apply(cfg, b, now, user, list[0]).0;
      PassGrows(cfg, d, now, user, list[1..], |list| - 1);
      Redo(cfg, b, now, user, list[0], c, later);
      FurtherPassIsIdle(cfg, d, now, later, user, list[1..], c);
    }
  }

  predicate Payable(cfg: Config, p: Payment) { Credits(cfg, p).Some? && Credits(cfg, p).value > 0 }

  /** A payment with a non-positive amount that no journal row, old or of this delivery, covers. */
  ghost predicate Stuck(cfg: Config, journal: seq<Event>, list: seq<Payment>, i: nat)
    requires i < |list|
  {
    && Credits(cfg, list[i]).Some? && Credits(cfg, list[i]).value <= 0
    && !Journaled(journal, list[i].id)
    && forall j :: 0 <= j < i ==> !(list[j].id == list[i].id && Payable(cfg, list[j]))
  }

  /** A delivery completes exactly when no payment is stuck: one that is blocks everything behind it,
      on every delivery. */
  lemma {:induction false} PassCompletes(cfg: Config, b: Books, now: int, user: User, list: seq<Payment>)
    requires BooksInv(b)
    ensures Pass(cfg, b, now, user, list, |list|).done <==>
        forall i :: 0 <= i < |list| ==> !Stuck(cfg, b.journal, list, i)
    ensures BooksInv(Pass(cfg, b, now, user, list, |list|).books)
    decreases |list|
  {
    hide Apply, BooksInv, Journaled, Stuck;
    if list != [] {
      var p := list[0];
      var (c, r) := Apply(cfg, b, now, user, p);
      ApplyKeepsBijection(cfg, b, now, user, p);
      StuckHead(cfg, b.journal, list);
      if !r.Failed? {
        PassCompletes(cfg, c, now, user, list[1..]);
        forall i | 0 < i < |list| ensures Stuck(cfg, c.journal, list[1..], i - 1) <==> Stuck(cfg, b.journal, list, i) {
          ApplyJournals(cfg, b, now, user, p, list[i]);
          StuckTail(cfg, b.journal, c.journal, list, i);
        }
        assert forall i :: 0 <= i < |list| - 1 ==>
            (Stuck(cfg, c.journal, list[1..], i) <==> Stuck(cfg, b.journal, list, i + 1));
      }
    }
  }

  lemma {:induction false} StuckHead(cfg: Config, journal: seq<Event>, list: seq<Payment>)
    requires list != []
    ensures Stuck(cfg, journal, list, 0) <==>
            Credits(cfg, list[0]).Some? && Credits(cfg, list[0]).value <= 0 && !Journaled(journal, list[0].id)
  {
  }

  lemma {:induction false} StuckTail(cfg: Config, before: seq<Event>, after: seq<Event>, list: seq<Payment>, i: nat)
    requires 0 < i < |list|
    requires Journaled(after, list[i].id) <==>
             Journaled(before, list[i].id) || (list[0].id == list[i].id && Payable(cfg, list[0]))
    ensures Stuck(cfg, after, list[1..], i - 1) <==> Stuck(cfg, before, list, i)
  {
    hide Journaled;
    var rest := list[1..];
    assert forall j :: 0 <= j < |rest| ==> rest[j] == list[j + 1];
    if Stuck(cfg, after, rest, i - 1) {
      forall j | 0 <= j < i ensures !(list[j].id == list[i].id && Payable(cfg, list[j])) {
        if j > 0 { assert list[j] == rest[j - 1]; }
      }
    }
  }

  /** A payment that does not fail is journaled afterwards exactly if it is payable or was before. */
  lemma {:induction false} ApplyJournals(cfg: Config, b: Books, now: int, user: User, p: Payment, q: Payment)
    requires BooksInv(b) && !Apply(cfg, b, now, user, p).1.Failed?
    ensures Journaled(Apply(cfg, b, now, user, p).0.journal, q.id) <==>
            Journaled(b.journal, q.id) || (p.id == q.id && Payable(cfg, p))
  {
    ApplyKeepsBijection(cfg, b, now, user, p);
    hide Grant, BooksInv;
    var (c, r) := Apply(cfg, b, now, user, p);
    if Journaled(b.journal, q.id) { JournaledGrows(b.journal, c.journal, q.id); }
    if r.Credited? {
      assert c.journal[|b.journal|].id == p.id;
      assert Payable(cfg, p) by { GrantNeedsAmount(PurseOf(b, user), CreditKey(p.id), Credits(cfg, p).value); }
    }
  }

  lemma {:induction false} GrantNeedsAmount(p: Purse, key: Key, amount: int)
    requires Grant(p, key, amount).1.Ok()
    ensures amount > 0
  {
  }

  // ---- which payments a callback credits ----

  /** An entry of the verified payment list; a field that is missing or of another type is `None`. */
  datatype Item = Item(status: string, paidAt: Option<int>, id: Option<string>, code: Option<string>,
                       kind: Option<string>)

  datatype Rules = Rules(lower: string -> string, paid: set<string>, freshness: int)

  predicate Filled(field: Option<string>) { field.Some? && !Blank(field.value) }

  function KindOf(kind: string): Kind {
    if kind == "one_time" then OneTime else if kind == "subscription" then Subscription else UnknownType
  }

  predicate Fresh(rules: Rules, now: int, item: Item) {
    item.paidAt.Some? && item.paidAt.value >= now - rules.freshness
  }

  function Creditable(rules: Rules, now: int, item: Item): Option<Payment> {
    if rules.lower(Trim(item.status)) !in rules.paid || !Fresh(rules, now, item) then None
    else if !Filled(item.id) || !Filled(item.code) || !Filled(item.kind) then None
    else Some(Payment(Trim(item.id.value), Trim(item.code.value),
                      KindOf(rules.lower(Trim(item.kind.value)))))
  }

  function Select(rules: Rules, now: int, data: seq<Item>): seq<Payment> {
    if data == [] then []
    else
      Select(rules, now, data[..|data| - 1]) +
      match Creditable(rules, now, data[|data| - 1]) { case Some(p) => [p] case None => [] }
  }

  /** No payment creditable now is older than the freshness window later. */
  ghost predicate StillFresh(rules: Rules, now: int, later: int, data: seq<Item>) {
    forall i :: 0 <= i < |data| && Creditable(rules, now, data[i]).Some? ==> Fresh(rules, later, data[i])
  }

  /** A later callback selects the same payments from the same list exactly when none of them has left
      the freshness window; otherwise it selects fewer. */
  lemma {:induction false} SelectionStable(rules: Rules, data: seq<Item>, now: int, later: int)
    requires now <= later
    ensures Select(rules, later, data) == Select(rules, now, data) <==> StillFresh(rules, now, later, data)
    ensures |Select(rules, later, data)| <= |Select(rules, now, data)|
    ensures !StillFresh(rules, now, later, data) ==> |Select(rules, later, data)| < |Select(rules, now, data)|
  {
    hide Filled, KindOf;
    if data != [] {
      var n := |data| - 1;
      SelectionStable(rules, data[..n], now, later);
      assert forall i :: 0 <= i < n ==> data[..n][i] == data[i];
      assert StillFresh(rules, now, later, data) <==>
             && StillFresh(rules, now, later, data[..n])
             && (Creditable(rules, now, data[n]).Some? ==> Fresh(rules, later, data[n]));
    }
  }

  /** Callbacks for one payment list, each selecting at its own time and dying after some payments. */
  function Callbacks(cfg: Config, rules: Rules, b: Books, user: User, data: seq<Item>, tries: seq<Attempt>): Books {
    if tries == [] then b
    else
      var n := |tries| - 1;
      var before := Callbacks(cfg, rules, b, user, data, tries[..n]);
      Pass(cfg, before, tries[n].at, user, Select(rules, tries[n].at, data), tries[n].limit).books
  }

  /** While every payment stays fresh, failed callbacks followed by a complete one converge to what the
      first would have done. */
  lemma {:induction false} CallbacksConverge(cfg: Config, rules: Rules, b: Books, user: User, data: seq<Item>,
                                             tries: seq<Attempt>, now: int, later: int)
    requires now <= later && StillFresh(rules, now, later, data)
    requires forall t :: t in tries ==> now <= t.at <= later
    ensures var list := Select(rules, now, data);
            var x := Pass(cfg, Callbacks(cfg, rules, b, user, data, tries), later, user, Select(rules, later, data),
                          |list|);
            var y := Pass(cfg, b, now, user, list, |list|);
            Same(x.books, y.books) && x.done == y.done
  {
    hide Pass, Select, StillFresh;
    SelectionStable(rules, data, now, later);
    CallbacksAreAttempts(cfg, rules, b, user, data, tries, now, later);
    RedeliveryConverges(cfg, b, user, Select(rules, now, data), tries, later, now);
  }

  lemma {:induction false} CallbacksAreAttempts(cfg: Config, rules: Rules, b: Books, user: User, data: seq<Item>,
                                                tries: seq<Attempt>, now: int, later: int)
    requires StillFresh(rules, now, later, data) && forall t :: t in tries ==> now <= t.at <= later
    ensures Callbacks(cfg, rules, b, user, data, tries) == Attempts(cfg, b, user, Select(rules, now, data), tries)
  {
    hide Pass, Select;
    if tries != [] {
      var n := |tries| - 1;
      CallbacksAreAttempts(cfg, rules, b, user, data, tries[..n], now, later);
      assert StillFresh(rules, now, tries[n].at, data);
      SelectionStable(rules, data, now, tries[n].at);
    }
  }

  // ---- the webhook service ----

  /** `select_creditable_payments`: the filtering loop over the list. */
  method SelectCreditablePayments(rules: Rules, now: int, data: seq<Item>) returns (creditable: seq<Payment>)
    ensures creditable == Select(rules, now, data)
  {
    creditable := [];
    for i := 0 to |data|
      invariant creditable == Select(rules, now, data[..i])
    {
      var item := data[i];
      assert data[..i + 1][..i] == data[..i];
      if rules.lower(Trim(item.status)) !in rules.paid { continue; }
      if item.paidAt.None? || item.paidAt.value < now - rules.freshness { continue; }
      if !Filled(item.id) || !Filled(item.code) || !Filled(item.kind) { continue; }
      creditable := creditable + [Payment(Trim(item.id.value), Trim(item.code.value),
                                          KindOf(rules.lower(Trim(item.kind.value))))];
    }
    assert data[..|data|] == data;
  }

  class WebhookService {
    const cfg: Config
    var journal: seq<Event>
    var purses: map<User, Purse>
    var plans: map<User, Plan>

    function State(): Books reads this { Books(journal, purses, plans) }

    constructor (cfg: Config)
      ensures this.cfg == cfg && State() == Books([], map[], map[]) && BooksInv(State())
    {
      this.cfg, journal, purses, plans := cfg, [], map[], map[];
    }

    /** INSERT INTO cloudpayments_webhook_events ... ON CONFLICT (transaction_id) DO NOTHING. */
    method InsertEvent(e: Event) returns (inserted: bool)
      modifies this`journal
      ensures inserted == !Journaled(old(journal), e.id)
      ensures journal == if inserted then old(journal) + [e] else old(journal)
    {
      for i := 0 to |journal|
        invariant forall j :: 0 <= j < i ==> journal[j].id != e.id
      {
        if journal[i].id == e.id { return false; }
      }
      journal := journal + [e];
      return true;
    }

    /** One payment; an exception after the journal row was inserted rolls the transaction back. */
    method ApplyPayment(p: Payment, user: User, now: int) returns (r: Result)
      modifies this
      ensures (State(), r) == Apply(cfg, old(State()), now, user, p)
    {
      var credits := Credits(cfg, p);
      if credits.None? { return Skipped; }
      var begun := State();
      var inserted := InsertEvent(Event(p.id, user, p.code, p.kind));
      if !inserted { return Duplicate; }
      if p.kind.Subscription? { plans := plans[user := Plan(p.code, cfg.expiry(now, p.code))]; }
      var (purse, v) := Grant(if user in purses then purses[user] else Purse(0, []), CreditKey(p.id), credits.value);
      if !v.Ok() {
        journal, purses, plans := begun.journal, begun.purses, begun.plans;
        return Failed;
      }
      purses := purses[user := purse];
      return Credited;
    }

    /** Stage 6 of the callback: each payment in its own transaction, in list order, until one raises
        or the process dies after `limit` of them. */
    method CreditAll(list: seq<Payment>, user: User, now: int, limit: nat) returns (credited: nat, done: bool)
      modifies this
      ensures PassResult(State(), credited, done) == Pass(cfg, old(State()), now, user, list, limit)
    {
      credited := 0;
      var i := 0;
      while i < |list|
        invariant 0 <= i <= |list| && i <= limit
        invariant var rest := Pass(cfg, State(), now, user, list[i..], limit - i);
                  Pass(cfg, old(State()), now, user, list, limit) == rest.(credited := credited + rest.credited)
      {
        assert list[i..][0] == list[i] && list[i..][1..] == list[i + 1..];
        if i == limit { return credited, false; }
        var r := ApplyPayment(list[i], user, now);
        if r.Failed? { return credited, false; }
        if r.Credited? { credited := credited + 1; }
        i := i + 1;
      }
      assert list[i..] == [];
      return credited, true;
    }
  }
}
