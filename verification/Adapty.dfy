/** The Adapty webhook: events deduplicated by id, credits deduplicated by billing period. */
module Adapty {
  import opened Wallet

  type User = nat

  datatype Event = Event(
    id: string, kind: string, user: Option<User>, product: Option<string>, expiresAt: Option<int>,
    transaction: Option<string>, original: Option<string>, active: Option<bool>, access: Option<string>)

  datatype Semantics = Granting | Expiring | Noop

  datatype Status = Active | Expired
  datatype Subscription = Subscription(status: Status, plan: Option<string>, expiresAt: Option<int>)

  datatype Config = Config(users: set<User>, tiers: map<string, int>, fallback: int)

  /** The journal `adapty_webhook_events`, the wallets and the subscriptions. */
  datatype Books = Books(journal: seq<string>, purses: map<User, Purse>, subscriptions: map<User, Subscription>)

  datatype Outcome = Ignored | Duplicate | Applied | Failed

  const GRANTING: set<string> := {"trial_started", "subscription_started", "subscription_renewed"}
  const EXPIRING: set<string> := {"subscription_expired", "subscription_cancelled"}
  const NOOP: set<string> := {"subscription_renewal_cancelled", "trial_renewal_cancelled"}
  const CONDITIONAL := "access_level_updated"

  predicate Known(kind: string) {
    kind in GRANTING || kind in EXPIRING || kind in NOOP || kind == CONDITIONAL
  }

  /** `classify_event`: an access update grants only active premium access and expires only on an
      explicit `false`. */
  function Classify(e: Event): Semantics {
    if e.kind in GRANTING then Granting
    else if e.kind in EXPIRING then Expiring
    else if e.kind in NOOP then Noop
    else if e.active == Some(true) && e.access == Some("premium") then Granting
    else if e.active == Some(false) then Expiring
    else Noop
  }

  /** The billing period an event belongs to; empty strings fall through. */
  function Period(e: Event): string {
    if e.transaction.Some? && e.transaction.value != "" then e.transaction.value
    else if e.original.Some? && e.original.value != "" then e.original.value
    else e.id
  }

  function CreditKey(period: string): Key { Named("adapty-txn:" + period) }

  function Tier(cfg: Config, e: Event): int {
    var product := if e.product.Some? then e.product.value else "";
    if product in cfg.tiers && cfg.tiers[product] != 0 then cfg.tiers[product] else cfg.fallback
  }

  function PurseOf(b: Books, u: User): Purse {
    if u in b.purses then b.purses[u] else Purse(0, [])
  }

  predicate Accepts(cfg: Config, e: Event) {
    e.user.Some? && e.user.value in cfg.users && Known(e.kind)
  }

  function Upsert(subscriptions: map<User, Subscription>, u: User, e: Event): map<User, Subscription> {
    match Classify(e)
    case Granting => subscriptions[u := Subscription(Active, e.product, e.expiresAt)]
    case Expiring =>
      subscriptions[u := if u in subscriptions then subscriptions[u].(status := Expired)
                         else Subscription(Expired, None, None)]
    case Noop => subscriptions
  }

  /** One delivery, in one transaction: a grant that conflicts rolls back the journal row and the
      subscription as well. */
  function Handle(cfg: Config, b: Books, e: Event): (Books, Outcome) {
    if !Accepts(cfg, e) then (b, Ignored)
    else if e.id in b.journal then (b, Duplicate)
    else
      var u := e.user.value;
      var c := b.(journal := b.journal + [e.id], subscriptions := Upsert(b.subscriptions, u, e));
      if !Classify(e).Granting? then (c, Outcome.Applied)
      else
        var (purse, v) := Grant(PurseOf(b, u), CreditKey(Period(e)), Tier(cfg, e));
        if v.Ok() then (c.(purses := b.purses[u := purse]), Outcome.Applied) else (b, Failed)
  }

  function Fold(cfg: Config, b: Books, stream: seq<Event>): Books {
    if stream == [] then b
    else Handle(cfg, Fold(cfg, b, stream[..|stream| - 1]), stream[|stream| - 1]).0
  }

  /** The stream with repeated deliveries removed. */
  function Distinct(stream: seq<Event>): seq<Event> {
    if stream == [] then []
    else
      var n := |stream| - 1;
      Distinct(stream[..n]) + if stream[n] in stream[..n] then [] else [stream[n]]
  }

  ghost predicate BooksInv(b: Books) {
    && (forall u: User :: Sound(PurseOf(b, u)))
    && (forall i, j :: 0 <= i < j < |b.journal| ==> b.journal[i] != b.journal[j])
  }

  /** The books only grow: journal and ledgers are appended to. */
  ghost predicate Grows(b: Books, c: Books) {
    && b.journal <= c.journal
    && forall u: User :: PurseOf(b, u).ledger <= PurseOf(c, u).ledger
  }

  lemma {:induction false} HandleKeeps(cfg: Config, b: Books, e: Event)
    requires BooksInv(b)
    ensures BooksInv(Handle(cfg, b, e).0) && Grows(b, Handle(cfg, b, e).0)
  {
    hide Sound, Known, Classify, Tier, Period, Find, Keys;
    if e.user.Some? {
      PerformSound(PurseOf(b, e.user.value), Op(Credit, CreditKey(Period(e)), Tier(cfg, e)));
      var c := Handle(cfg, b, e).0;
      assert forall u: User :: u != e.user.value ==> PurseOf(c, u) == PurseOf(b, u);
    }
  }

  /** Would this event leave the books alone from now on? */
  ghost predicate Inert(cfg: Config, b: Books, e: Event) {
    || !Accepts(cfg, e)
    || e.id in b.journal
    || (Classify(e).Granting? && Grant(PurseOf(b, e.user.value), CreditKey(Period(e)), Tier(cfg, e)).1.Conflict?)
  }

  lemma {:induction false} InertMeaning(cfg: Config, b: Books, e: Event)
    requires Inert(cfg, b, e)
    ensures Handle(cfg, b, e).0 == b && !Handle(cfg, b, e).1.Applied?
  {
    hide Known, Classify, Tier, Period, Find;
  }

  /** A grant that conflicts, or one that replays, does so for good. */
  lemma {:induction false} GrantStable(p: Purse, q: Purse, key: Key, amount: int)
    requires Sound(q) && p.ledger <= q.ledger
    ensures Grant(p, key, amount).1.Conflict? ==> Grant(q, key, amount).1.Conflict?
    ensures Grant(p, key, amount).1.Replayed? ==> Grant(q, key, amount).1.Replayed?
  {
    hide Find, UniqueKeys, Keys, Net;
    var more := q.ledger[|p.ledger|..];
    assert q.ledger == p.ledger + more;
    if Find(p.ledger, key).Some? { FindStable(p.ledger, more, key); }
  }

  /** After one delivery an event is inert. */
  lemma {:induction false} HandledIsInert(cfg: Config, b: Books, e: Event)
    requires BooksInv(b)
    ensures Inert(cfg, Handle(cfg, b, e).0, e)
  {
    hide Find, UniqueKeys, Keys, Net, Known, Classify, Tier, Period;
    var (c, out) := Handle(cfg, b, e);
    if out.Applied? { assert c.journal[|b.journal|] == e.id; }
  }

  lemma {:induction false} InertStays(cfg: Config, b: Books, c: Books, e: Event)
    requires Inert(cfg, b, e) && Grows(b, c) && BooksInv(c)
    ensures Inert(cfg, c, e)
  {
    hide Grant, Sound, Known, Classify, Tier, Period;
    if Accepts(cfg, e) && e.id !in b.journal {
      GrantStable(PurseOf(b, e.user.value), PurseOf(c, e.user.value), CreditKey(Period(e)), Tier(cfg, e));
    }
  }

  lemma {:induction false} SeenIsInert(cfg: Config, b: Books, stream: seq<Event>, e: Event)
    requires BooksInv(b) && e in stream
    ensures Inert(cfg, Fold(cfg, b, stream), e) && BooksInv(Fold(cfg, b, stream))
  {
    hide Inert, Handle, BooksInv, Grows;
    var n := |stream| - 1;
    FoldKeeps(cfg, b, stream[..n]);
    var before := Fold(cfg, b, stream[..n]);
    HandleKeeps(cfg, before, stream[n]);
    if e == stream[n] {
      HandledIsInert(cfg, before, e);
    } else {
      SeenIsInert(cfg, b, stream[..n], e);
      InertStays(cfg, before, Fold(cfg, b, stream), e);
    }
  }

  lemma {:induction false} FoldKeeps(cfg: Config, b: Books, stream: seq<Event>)
    requires BooksInv(b)
    ensures BooksInv(Fold(cfg, b, stream))
  {
    hide BooksInv, Handle;
    if stream != [] {
      FoldKeeps(cfg, b, stream[..|stream| - 1]);
      HandleKeeps(cfg, Fold(cfg, b, stream[..|stream| - 1]), stream[|stream| - 1]);
    }
  }

  /** Redelivery insensitivity: any stream leaves the journal, the ledgers and the subscriptions that
      the stream without its repeats leaves, including events whose grant conflicts. */
  lemma {:induction false} RepeatsChangeNothing(cfg: Config, b: Books, stream: seq<Event>)
    requires BooksInv(b)
    ensures Fold(cfg, b, stream) == Fold(cfg, b, Distinct(stream))
  {
    hide BooksInv, Handle, Inert;
    if stream != [] {
      var n := |stream| - 1;
      RepeatsChangeNothing(cfg, b, stream[..n]);
      if stream[n] in stream[..n] {
        SeenIsInert(cfg, b, stream[..n], stream[n]);
        InertMeaning(cfg, Fold(cfg, b, stream[..n]), stream[n]);
        assert Distinct(stream) == Distinct(stream[..n]);
      } else {
        var d := Distinct(stream);
        assert d[..|d| - 1] == Distinct(stream[..n]) && d[|d| - 1] == stream[n];
      }
    }
  }

  /** Every delivery of an event carries the same content. */
  ghost predicate Identical(stream: seq<Event>) {
    forall e, f :: e in stream && f in stream && e.id == f.id ==> e == f
  }

  predicate Credits(cfg: Config, e: Event) { Accepts(cfg, e) && Classify(e).Granting? }

  /** The credit on record for the period of a granting event is the one this event asks for. */
  predicate OnRecord(cfg: Config, b: Books, e: Event)
    requires e.user.Some?
  {
    Grant(PurseOf(b, e.user.value), CreditKey(Period(e)), Tier(cfg, e)).1.Replayed?
  }

  /** Of the granting events of one billing period, those that took effect are the ones whose amount
      is on record: the period is credited once, with the amount of the first that was accepted, and
      an event that asks for another amount leaves no trace. */
  lemma {:induction false} PeriodCreditedOnce(cfg: Config, b: Books, stream: seq<Event>, e: Event)
    requires BooksInv(b) && b.journal == [] && Identical(stream) && e in stream && Credits(cfg, e)
    ensures var c := Fold(cfg, b, stream); e.id in c.journal <==> OnRecord(cfg, c, e)
  {
    hide BooksInv, Fold, Handle, OnRecord;
    Journaled(cfg, b, stream, e);
    SeenIsInert(cfg, b, stream, e);
    InertDecides(cfg, Fold(cfg, b, stream), e);
  }

  lemma {:induction false} InertDecides(cfg: Config, b: Books, e: Event)
    requires Inert(cfg, b, e) && Credits(cfg, e)
    ensures e.id !in b.journal ==> !OnRecord(cfg, b, e)
  {
    hide Grant, Known, Classify, Tier, Period;
  }

  lemma {:induction false} Journaled(cfg: Config, b: Books, stream: seq<Event>, e: Event)
    requires BooksInv(b) && b.journal == [] && Credits(cfg, e)
    requires forall f :: f in stream && f.id == e.id ==> f == e
    ensures var c := Fold(cfg, b, stream); e.id in c.journal ==> OnRecord(cfg, c, e)
  {
    hide BooksInv, Handle, OnRecord;
    if stream != [] {
      var n := |stream| - 1;
      Journaled(cfg, b, stream[..n], e);
      FoldKeeps(cfg, b, stream[..n]);
      RecordStep(cfg, Fold(cfg, b, stream[..n]), stream[n], e);
    }
  }

  lemma {:induction false} RecordStep(cfg: Config, b: Books, f: Event, e: Event)
    requires BooksInv(b) && Credits(cfg, e) && (f.id == e.id ==> f == e)
    requires e.id in b.journal ==> OnRecord(cfg, b, e)
    ensures e.id in Handle(cfg, b, f).0.journal ==> OnRecord(cfg, Handle(cfg, b, f).0, e)
  {
    hide Sound, Find, Keys, Known, Classify, Tier, Period;
    var c := Handle(cfg, b, f).0;
    HandleKeeps(cfg, b, f);
    if e.id in b.journal {
      hide Grant;
      GrantStable(PurseOf(b, e.user.value), PurseOf(c, e.user.value), CreditKey(Period(e)), Tier(cfg, e));
    } else if f == e {
      PerformSound(PurseOf(b, e.user.value), Op(Credit, CreditKey(Period(e)), Tier(cfg, e)));
    }
  }

  /** At most one ledger row per user and billing period, whatever arrives. */
  lemma {:induction false} OneCreditPerPeriod(cfg: Config, b: Books, stream: seq<Event>, u: User, period: string)
    requires BooksInv(b)
    ensures var ledger := PurseOf(Fold(cfg, b, stream), u).ledger;
            forall i, j :: 0 <= i < |ledger| && 0 <= j < |ledger| && ledger[i].key == ledger[j].key == CreditKey(period) ==>
              i == j
  {
    hide Fold, Keys;
    FoldKeeps(cfg, b, stream);
    UniqueKeysMeaning(PurseOf(Fold(cfg, b, stream), u).ledger);
  }

  /** An accepted event raises exactly when it grants for the first time and its amount is not positive,
      or the period is on record with another row; it then leaves the books as they were. */
  lemma {:induction false} FailsExactly(cfg: Config, b: Books, e: Event)
    requires BooksInv(b)
    ensures Handle(cfg, b, e).1.Failed? <==>
              && Credits(cfg, e)
              && e.id !in b.journal
              && (Tier(cfg, e) <= 0
                  || match Find(PurseOf(b, e.user.value).ledger, CreditKey(Period(e)))
                     case None => false
                     case Some(row) => row != Row(CreditKey(Period(e)), Credit, Tier(cfg, e)))
    ensures Handle(cfg, b, e).1.Failed? ==> Handle(cfg, b, e).0 == b
  {
    hide Sound, Find, Keys, Known, Classify, Tier, Period;
    if Credits(cfg, e) {
      PerformSound(PurseOf(b, e.user.value), Op(Credit, CreditKey(Period(e)), Tier(cfg, e)));
    }
  }

  /** Two events of one period with different tiers: the second raises, is rolled back, and raises
      again on every redelivery. */
  lemma {:induction false} OtherTierFails(cfg: Config, b: Books, e: Event, f: Event)
    requires BooksInv(b) && Credits(cfg, e) && Credits(cfg, f) && Handle(cfg, b, e).1.Applied?
    requires e.user == f.user && Period(e) == Period(f) && Tier(cfg, e) != Tier(cfg, f)
    requires f.id !in b.journal && f.id != e.id
    ensures Handle(cfg, Handle(cfg, b, e).0, f) == (Handle(cfg, b, e).0, Failed)
  {
    hide Sound, Find, Keys, Known, Classify, Tier, Period;
    PerformSound(PurseOf(b, e.user.value), Op(Credit, CreditKey(Period(e)), Tier(cfg, e)));
    var c := Handle(cfg, b, e).0;
    assert Grant(PurseOf(c, e.user.value), CreditKey(Period(e)), Tier(cfg, e)).1.Replayed?;
  }

  // ---- which event of a period pays ----

  /** A granting event of a user's billing period with a positive amount. */
  predicate Pays(cfg: Config, u: User, period: string, e: Event) {
    Credits(cfg, e) && e.user == Some(u) && Period(e) == period && Tier(cfg, e) > 0
  }

  /** The first such event of a stream. */
  function FirstPaying(cfg: Config, stream: seq<Event>, u: User, period: string): Option<Event> {
    if stream == [] then None
    else
      var n := |stream| - 1;
      var before := FirstPaying(cfg, stream[..n], u, period);
      if before.Some? then before else if Pays(cfg, u, period, stream[n]) then Some(stream[n]) else None
  }

  ghost predicate PaysFirst(cfg: Config, stream: seq<Event>, u: User, period: string, i: int) {
    && 0 <= i < |stream| && Pays(cfg, u, period, stream[i])
    && forall j :: 0 <= j < i ==> !Pays(cfg, u, period, stream[j])
  }

  /** It pays, and no event before it does; without it none does. */
  lemma {:induction false} FirstPayingMeaning(cfg: Config, stream: seq<Event>, u: User, period: string)
    ensures match FirstPaying(cfg, stream, u, period)
            case None => forall i :: 0 <= i < |stream| ==> !Pays(cfg, u, period, stream[i])
            case Some(e) => exists i :: PaysFirst(cfg, stream, u, period, i) && stream[i] == e
  {
    hide Pays;
    if stream != [] {
      var n := |stream| - 1;
      FirstPayingMeaning(cfg, stream[..n], u, period);
      assert forall i :: 0 <= i < n ==> stream[..n][i] == stream[i];
      if FirstPaying(cfg, stream[..n], u, period).Some? {
        var i :| PaysFirst(cfg, stream[..n], u, period, i) && stream[i] == FirstPaying(cfg, stream, u, period).value;
        assert PaysFirst(cfg, stream, u, period, i);
      } else if Pays(cfg, u, period, stream[n]) {
        assert PaysFirst(cfg, stream, u, period, n);
      }
    }
  }

  /** The row of a period that a stream leaves, from the books before it: what was on record, or else
      the credit of the first paying event. */
  function Settlement(cfg: Config, b: Books, stream: seq<Event>, u: User, period: string): Option<Row> {
    var found := Find(PurseOf(b, u).ledger, CreditKey(period));
    if found.Some? then found
    else
      match FirstPaying(cfg, stream, u, period)
      case None => None
      case Some(e) => Some(Row(CreditKey(period), Credit, Tier(cfg, e)))
  }

  /** No id of the stream was processed before it. */
  ghost predicate NewIds(b: Books, stream: seq<Event>) { forall e :: e in stream ==> e.id !in b.journal }

  lemma {:induction false} CreditKeyInjective(a: string, b: string)
    requires CreditKey(a) == CreditKey(b)
    ensures a == b
  {
    assert ("adapty-txn:" + a)[11..] == a;
    assert ("adapty-txn:" + b)[11..] == b;
  }

  lemma {:induction false} GrantFinds(p: Purse, key: Key, amount: int, at: Key)
    ensures Find(Grant(p, key, amount).0.ledger, at) ==
            if key == at && amount > 0 && Find(p.ledger, at).None? then Some(Row(at, Credit, amount))
            else Find(p.ledger, at)
    ensures Find(p.ledger, key).None? && amount > 0 ==> Grant(p, key, amount).1.Ok()
  {
    hide Find, Keys;
    FindAppend(p.ledger, Row(key, Credit, amount), at);
  }

  /** What one event does to the row of a period. */
  lemma {:induction false} HandleSettles(cfg: Config, b: Books, e: Event, u: User, period: string)
    requires BooksInv(b)
    ensures Find(PurseOf(Handle(cfg, b, e).0, u).ledger, CreditKey(period)) ==
            var found := Find(PurseOf(b, u).ledger, CreditKey(period));
            if found.Some? || !Pays(cfg, u, period, e) || e.id in b.journal then found
            else Some(Row(CreditKey(period), Credit, Tier(cfg, e)))
  {
    hide Sound, Find, Keys, Known, Classify, Tier, Period, CreditKey, Upsert, Grant;
    if Accepts(cfg, e) && e.user.value == u {
      GrantFinds(PurseOf(b, u), CreditKey(Period(e)), Tier(cfg, e), CreditKey(period));
      if CreditKey(Period(e)) == CreditKey(period) { CreditKeyInjective(Period(e), period); }
    }
  }

  /** Which event of a period is credited: over any stream of new events, the row of the period is the
      one that was there, or the credit of the first granting event with a positive amount. */
  lemma {:induction false} FirstPayingIsCredited(cfg: Config, b: Books, stream: seq<Event>, u: User, period: string)
    requires BooksInv(b) && Identical(stream) && NewIds(b, stream)
    ensures Find(PurseOf(Fold(cfg, b, stream), u).ledger, CreditKey(period)) == Settlement(cfg, b, stream, u, period)
  {
    hide BooksInv, Handle, Pays, Find, CreditKey, Tier, PurseOf;
    if stream != [] {
      var n := |stream| - 1;
      var before := Fold(cfg, b, stream[..n]);
      FirstPayingIsCredited(cfg, b, stream[..n], u, period);
      FoldKeeps(cfg, b, stream[..n]);
      HandleSettles(cfg, before, stream[n], u, period);
      if stream[n].id in before.journal {
        FoldJournals(cfg, b, stream[..n], stream[n].id);
        assert stream[n] in stream[..n];
        FirstPayingMeaning(cfg, stream[..n], u, period);
      }
    }
  }

  /** A journal row is old or from an event of the stream. */
  lemma {:induction false} FoldJournals(cfg: Config, b: Books, stream: seq<Event>, id: string)
    requires id in Fold(cfg, b, stream).journal
    ensures id in b.journal || exists e :: e in stream && e.id == id
  {
    hide Known, Classify, Tier, Period, Grant, CreditKey;
    if stream != [] {
      var n := |stream| - 1;
      if stream[n].id == id {
        assert stream[n] in stream;
      } else {
        FoldJournals(cfg, b, stream[..n], id);
      }
    }
  }

  /** Which events of a stream take effect, read off the stream and the books before it: a granting
      event is journaled exactly when its amount is positive and is the one its period settles on. */
  lemma {:induction false} GrantsTakeEffect(cfg: Config, b: Books, stream: seq<Event>, e: Event)
    requires BooksInv(b) && b.journal == [] && Identical(stream) && e in stream && Credits(cfg, e)
    ensures e.id in Fold(cfg, b, stream).journal <==>
            && Tier(cfg, e) > 0
            && Settlement(cfg, b, stream, e.user.value, Period(e)) ==
               Some(Row(CreditKey(Period(e)), Credit, Tier(cfg, e)))
  {
    hide BooksInv, Fold, Handle, Settlement, Find, CreditKey, Tier, Period, Classify, Known;
    PeriodCreditedOnce(cfg, b, stream, e);
    FirstPayingIsCredited(cfg, b, stream, e.user.value, Period(e));
  }

  // ---- what an event does, told by its fields ----

  /** Kinds that grant access, whatever else the event says; an access update does for active premium. */
  predicate GrantsAccess(e: Event) {
    || e.kind == "trial_started" || e.kind == "subscription_started" || e.kind == "subscription_renewed"
    || (e.kind == "access_level_updated" && e.active == Some(true) && e.access == Some("premium"))
  }

  /** Kinds that end it; an access update does on an explicit `false`. */
  predicate EndsAccess(e: Event) {
    || e.kind == "subscription_expired" || e.kind == "subscription_cancelled"
    || (e.kind == "access_level_updated" && e.active == Some(false))
  }

  /** The events that are understood at all: those, and the ones that leave access as it is. */
  predicate Understood(e: Event) {
    || GrantsAccess(e) || EndsAccess(e) || e.kind == "access_level_updated"
    || e.kind == "subscription_renewal_cancelled" || e.kind == "trial_renewal_cancelled"
  }

  lemma {:induction false} KindsMean(e: Event)
    ensures Known(e.kind) <==> Understood(e)
    ensures Understood(e) ==> (Classify(e).Granting? <==> GrantsAccess(e)) && (Classify(e).Expiring? <==> EndsAccess(e))
  {
  }

  /** An event that took effect: a granting one leaves its user active with its own plan and date; an
      ending one marks the subscription expired and touches neither plan nor date; any other event
      touches nothing. No other user's subscription and no ledger of another user changes. */
  lemma {:induction false} SubscriptionFollows(cfg: Config, b: Books, e: Event)
    requires BooksInv(b) && Handle(cfg, b, e).1.Applied?
    ensures var c := Handle(cfg, b, e).0;
            && Understood(e) && e.user.Some? && e.user.value in cfg.users && c.journal == b.journal + [e.id]
            && var u := e.user.value;
            && (GrantsAccess(e) ==>
                  u in c.subscriptions && c.subscriptions[u] == Subscription(Active, e.product, e.expiresAt))
            && (EndsAccess(e) ==>
                  && u in c.subscriptions && c.subscriptions[u].status == Expired
                  && (u in b.subscriptions ==>
                        && c.subscriptions[u].plan == b.subscriptions[u].plan
                        && c.subscriptions[u].expiresAt == b.subscriptions[u].expiresAt)
                  && (u !in b.subscriptions ==> c.subscriptions[u] == Subscription(Expired, None, None)))
            && (!GrantsAccess(e) && !EndsAccess(e) ==> c.subscriptions == b.subscriptions)
            && (!GrantsAccess(e) ==> c.purses == b.purses)
            && (forall v :: v != u ==>
                  && PurseOf(c, v) == PurseOf(b, v)
                  && (v in c.subscriptions <==> v in b.subscriptions)
                  && (v in b.subscriptions ==> c.subscriptions[v] == b.subscriptions[v]))
  {
    hide Sound, Known, Classify, Grant, Period, Tier, GrantsAccess, EndsAccess, Understood;
    KindsMean(e);
  }

  /** An event that is not understood, or names no user of ours, leaves no trace at all. */
  lemma {:induction false} OthersIgnored(cfg: Config, b: Books, e: Event)
    ensures Handle(cfg, b, e).1.Ignored? <==> !Understood(e) || e.user.None? || e.user.value !in cfg.users
    ensures Handle(cfg, b, e).1.Ignored? || Handle(cfg, b, e).1.Duplicate? ==> Handle(cfg, b, e).0 == b
  {
    hide Known, Classify, Grant, Period, Tier, GrantsAccess, EndsAccess, Understood, Upsert;
    KindsMean(e);
  }

  predicate Names(field: Option<string>, value: string) { field == Some(value) && value != "" }

  /** The transaction that is credited: the event's own, else the original one, else the event's id. */
  predicate CreditedAs(e: Event, period: string) {
    || Names(e.transaction, period)
    || ((e.transaction.None? || e.transaction == Some("")) && Names(e.original, period))
    || ((e.transaction.None? || e.transaction == Some("")) && (e.original.None? || e.original == Some(""))
        && period == e.id)
  }

  /** What a product buys: its amount in the map, unless it has none there or zero. */
  predicate Buys(cfg: Config, product: Option<string>, amount: int) {
    var name := if product.Some? then product.value else "";
    if name in cfg.tiers && cfg.tiers[name] != 0 then amount == cfg.tiers[name] else amount == cfg.fallback
  }

  /** After a granting event that took effect the ledger of its user holds one credit under the key of its
      transaction, of the amount its product buys, and otherwise what it held before. */
  lemma {:induction false} PeriodIsTransaction(cfg: Config, b: Books, e: Event, period: string, amount: int)
    requires BooksInv(b) && GrantsAccess(e) && Handle(cfg, b, e).1.Applied?
    requires CreditedAs(e, period) && Buys(cfg, e.product, amount)
    ensures var before, after := PurseOf(b, e.user.value), PurseOf(Handle(cfg, b, e).0, e.user.value);
            var row := Row(Named("adapty-txn:" + period), Credit, amount);
            && amount > 0 && row in after.ledger
            && (row !in before.ledger ==>
                  && (forall x :: x in before.ledger ==> x.key != row.key)
                  && after.ledger == before.ledger + [row] && after.balance == before.balance + amount)
            && (row in before.ledger ==> after == before)
  {
    hide Sound, Known, Classify, Upsert, Find, Keys;
    KindsMean(e);
    assert Period(e) == period && Tier(cfg, e) == amount;
    var before := PurseOf(b, e.user.value);
    var row := Row(CreditKey(period), Credit, amount);
    GrantOnce(before, row);
  }

  lemma {:induction false} GrantOnce(p: Purse, row: Row)
    requires row.kind.Credit? && Grant(p, row.key, row.amount).1.Ok()
    ensures var after := Grant(p, row.key, row.amount).0;
            && row.amount > 0
            && (row in p.ledger ==> after == p)
            && (row !in p.ledger ==>
                  (forall x :: x in p.ledger ==> x.key != row.key)
                  && after == Purse(p.balance + row.amount, p.ledger + [row]))
  {
    hide Keys;
    forall x | x in p.ledger && x.key == row.key ensures Find(p.ledger, row.key).Some? {
      KeysOfMember(p.ledger, x);
    }
    if Find(p.ledger, row.key).Some? { assert row in p.ledger; }
  }

  /** Each period pays: two granting events of a user with different transactions, new to journal and
      ledger, add exactly their two credits, whatever original transaction they share. */
  lemma {:induction false} EveryRenewalPays(cfg: Config, b: Books, e: Event, f: Event, first: int, second: int)
    requires BooksInv(b) && GrantsAccess(e) && GrantsAccess(f)
    requires e.user.Some? && f.user == e.user && e.user.value in cfg.users
    requires e.id != f.id && e.id !in b.journal && f.id !in b.journal
    requires e.transaction.Some? && f.transaction.Some? && e.transaction != f.transaction
    requires e.transaction.value != "" && f.transaction.value != ""
    requires Buys(cfg, e.product, first) && Buys(cfg, f.product, second) && first > 0 && second > 0
    requires forall row :: row in PurseOf(b, e.user.value).ledger ==>
               row.key != Named("adapty-txn:" + e.transaction.value)
                   && row.key != Named("adapty-txn:" + f.transaction.value)
    ensures var before := PurseOf(b, e.user.value);
            var after := PurseOf(Handle(cfg, Handle(cfg, b, e).0, f).0, e.user.value);
            && after.ledger == before.ledger + [Row(Named("adapty-txn:" + e.transaction.value), Credit, first),
                                                Row(Named("adapty-txn:" + f.transaction.value), Credit, second)]
            && after.balance == before.balance + first + second
  {
    hide Sound, Known, Classify, Upsert, Find, Keys, Tier;
    KindsMean(e);
    KindsMean(f);
    var u := e.user.value;
    var (s, t) := (e.transaction.value, f.transaction.value);
    if CreditKey(s) == CreditKey(t) { CreditKeyInjective(s, t); }
    assert Tier(cfg, e) == first && Tier(cfg, f) == second by { TierMeans(cfg, e, first); TierMeans(cfg, f, second); }
    GrantNew(PurseOf(b, u), CreditKey(s), first);
    var c := Handle(cfg, b, e).0;
    assert PurseOf(c, u) == Purse(PurseOf(b, u).balance + first, PurseOf(b, u).ledger + [Row(CreditKey(s), Credit, first)]);
    GrantNew(PurseOf(c, u), CreditKey(t), second);
  }

  lemma {:induction false} TierMeans(cfg: Config, e: Event, amount: int)
    requires Buys(cfg, e.product, amount)
    ensures Tier(cfg, e) == amount
  {
  }

  lemma {:induction false} GrantNew(p: Purse, key: Key, amount: int)
    requires amount > 0 && forall row :: row in p.ledger ==> row.key != key
    ensures Grant(p, key, amount) == (Purse(p.balance + amount, p.ledger + [Row(key, Credit, amount)]), Verdict.Applied)
  {
    hide Keys;
  }

  // ---- the webhook service ----

  class WebhookService {
    const cfg: Config
    var journal: seq<string>
    var purses: map<User, Purse>
    var subscriptions: map<User, Subscription>

    function State(): Books reads this { Books(journal, purses, subscriptions) }

    constructor (cfg: Config)
      ensures this.cfg == cfg && State() == Books([], map[], map[])
    {
      this.cfg, journal, purses, subscriptions := cfg, [], map[], map[];
    }

    /** INSERT INTO adapty_webhook_events ... ON CONFLICT (event_id) DO NOTHING. */
    method InsertEvent(id: string) returns (inserted: bool)
      modifies this`journal
      ensures inserted == (id !in old(journal))
      ensures journal == if inserted then old(journal) + [id] else old(journal)
    {
      for i := 0 to |journal|
        invariant id !in journal[..i]
      {
        if journal[i] == id { return false; }
      }
      journal := journal + [id];
      return true;
    }

    method UpsertSubscription(u: User, e: Event)
      requires !Classify(e).Noop?
      modifies this`subscriptions
      ensures subscriptions == Upsert(old(subscriptions), u, e)
    {
      if Classify(e).Granting? {
        subscriptions := subscriptions[u := Subscription(Active, e.product, e.expiresAt)];
      } else if u in subscriptions {
        subscriptions := subscriptions[u := subscriptions[u].(status := Expired)];
      } else {
        subscriptions := subscriptions[u := Subscription(Expired, None, None)];
      }
    }

    method Deliver(e: Event) returns (out: Outcome)
      modifies this
      ensures (State(), out) == Handle(cfg, old(State()), e)
    {
      if e.user.None? || e.user.value !in cfg.users || !Known(e.kind) { return Ignored; }
      var u, begun := e.user.value, State();
      var inserted := InsertEvent(e.id);
      if !inserted { return Duplicate; }
      var semantics := Classify(e);
      if !semantics.Noop? {
        UpsertSubscription(u, e);
        if semantics.Granting? {
          var (purse, v) := Grant(if u in purses then purses[u] else Purse(0, []), CreditKey(Period(e)), Tier(cfg, e));
          if !v.Ok() {
            journal, purses, subscriptions := begun.journal, begun.purses, begun.subscriptions;
            return Failed;
          }
          purses := purses[u := purse];
        }
      }
      return Outcome.Applied;
    }

    /** All deliveries of a stream, each in its own request. */
    method DeliverAll(stream: seq<Event>)
      modifies this
      ensures State() == Fold(cfg, old(State()), stream)
    {
      for i := 0 to |stream|
        invariant State() == Fold(cfg, old(State()), stream[..i])
      {
        assert stream[..i + 1][..i] == stream[..i];
        var _ := Deliver(stream[i]);
      }
      assert stream[..|stream|] == stream;
    }
  }
}
