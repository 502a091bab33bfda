/** Sliding-window rate limiting over sorted sets. */
module RateLimit {

  /** A member of a sorted set: `f"{now}:{uuid4()}"` with score `now`. */
  datatype Attempt = Attempt(id: nat, at: real)

  /** The attempts of the last window: those scored after `now - window`. */
  function Recent(attempts: seq<Attempt>, window: real, now: real): set<Attempt> {
    set a <- attempts | a.at > now - window
  }

  /** Attempt `i` is let through when it is among the first `limit` of its window. */
  predicate Allowed(attempts: seq<Attempt>, window: real, limit: int, i: nat)
    requires i < |attempts|
  {
    |Recent(attempts[..i + 1], window, attempts[i].at)| <= limit
  }

  ghost predicate Ordered(attempts: seq<Attempt>) {
    && (forall i, j :: 0 <= i <= j < |attempts| ==> attempts[i].at <= attempts[j].at)
    && (forall i, j :: 0 <= i < j < |attempts| ==> attempts[i].id != attempts[j].id)
  }

  /** The allowed attempts among the first `n`, in the window that ends at `end` (its left end is
      outside). */
  ghost function Admitted(attempts: seq<Attempt>, window: real, limit: int, end: real, n: nat): set<Attempt>
    requires n <= |attempts|
  {
    set i | 0 <= i < n && Allowed(attempts, window, limit, i) && end - window < attempts[i].at <= end :: attempts[i]
  }

  lemma {:induction false} SubsetSize<T>(a: set<T>, b: set<T>)
    requires a <= b
    ensures |a| <= |b|
  {
    if a != {} {
      var x :| x in a;
      SubsetSize(a - {x}, b - {x});
    }
  }

  lemma {:induction false} AdmittedStep(attempts: seq<Attempt>, window: real, limit: int, end: real, m: nat)
    requires m < |attempts| && !(Allowed(attempts, window, limit, m) && end - window < attempts[m].at <= end)
    ensures Admitted(attempts, window, limit, end, m + 1) == Admitted(attempts, window, limit, end, m)
  {
    hide Allowed;
  }

  lemma {:induction false} AdmittedCounted(attempts: seq<Attempt>, window: real, limit: int, end: real, m: nat)
    requires Ordered(attempts) && m < |attempts| && attempts[m].at <= end
    ensures Admitted(attempts, window, limit, end, m + 1) <= Recent(attempts[..m + 1], window, attempts[m].at)
  {
    hide Allowed;
    var all, recent := Admitted(attempts, window, limit, end, m + 1), Recent(attempts[..m + 1], window, attempts[m].at);
    forall a | a in all ensures a in recent {
      var i :| 0 <= i < m + 1 && a == attempts[i] && end - window < attempts[i].at;
      assert attempts[..m + 1][i] == attempts[i];
    }
  }

  /** However dense the attempts, a window never admits more than the limit: whatever was admitted in
      it before the last admitted attempt was counted when that one was. */
  lemma {:induction false} WindowBound(attempts: seq<Attempt>, window: real, limit: int, end: real, n: nat)
    requires Ordered(attempts) && n <= |attempts| && limit >= 0
    ensures |Admitted(attempts, window, limit, end, n)| <= limit
  {
    if n == 0 {
      assert Admitted(attempts, window, limit, end, n) == {};
    } else {
      hide Admitted, Ordered, Recent;
      var m := n - 1;
      if Allowed(attempts, window, limit, m) && end - window < attempts[m].at <= end {
        AdmittedCounted(attempts, window, limit, end, m);
        SubsetSize(Admitted(attempts, window, limit, end, n), Recent(attempts[..n], window, attempts[m].at));
      } else {
        WindowBound(attempts, window, limit, end, m);
        AdmittedStep(attempts, window, limit, end, m);
      }
    }
  }

  /** The allowed attempts scored exactly `at`. */
  ghost function AdmittedAt(attempts: seq<Attempt>, window: real, limit: int, at: real, n: nat): set<Attempt>
    requires n <= |attempts|
  {
    set i | 0 <= i < n && Allowed(attempts, window, limit, i) && attempts[i].at == at :: attempts[i]
  }

  /** The allowed attempts in the closed window that ends at `end`: both ends count. */
  ghost function Closed(attempts: seq<Attempt>, window: real, limit: int, end: real, n: nat): set<Attempt>
    requires n <= |attempts|
  {
    set i | 0 <= i < n && Allowed(attempts, window, limit, i) && end - window <= attempts[i].at <= end :: attempts[i]
  }

  /** The allowed attempts of the window without its right end. */
  ghost function Inner(attempts: seq<Attempt>, window: real, limit: int, end: real, n: nat): set<Attempt>
    requires n <= |attempts|
  {
    set i | 0 <= i < n && Allowed(attempts, window, limit, i) && end - window <= attempts[i].at < end :: attempts[i]
  }

  lemma {:induction false} ClosedSplits(attempts: seq<Attempt>, window: real, limit: int, end: real, n: nat)
    requires n <= |attempts| && window > 0.0
    ensures var inside := Admitted(attempts, window, limit, end, n);
            var left := AdmittedAt(attempts, window, limit, end - window, n);
            && Closed(attempts, window, limit, end, n) == inside + left && inside !! left
            && left <= Admitted(attempts, window, limit, end - window, n)
    ensures Closed(attempts, window, limit, end, n) ==
            Inner(attempts, window, limit, end, n) + AdmittedAt(attempts, window, limit, end, n)
  {
    hide Allowed;
  }

  lemma {:induction false} InnerStep(attempts: seq<Attempt>, window: real, limit: int, end: real, m: nat)
    requires m < |attempts| && !(Allowed(attempts, window, limit, m) && end - window <= attempts[m].at < end)
    ensures Inner(attempts, window, limit, end, m + 1) == Inner(attempts, window, limit, end, m)
  {
    hide Allowed;
  }

  lemma {:induction false} InnerCounted(attempts: seq<Attempt>, window: real, limit: int, end: real, m: nat)
    requires Ordered(attempts) && m < |attempts| && attempts[m].at < end
    ensures Inner(attempts, window, limit, end, m + 1) <= Admitted(attempts, window, limit, attempts[m].at, m + 1)
  {
    hide Allowed;
    assert forall i :: 0 <= i <= m ==> attempts[i].at <= attempts[m].at;
  }

  /** A window without its right end admits no more than the limit either. */
  lemma {:induction false} RightOpenBound(attempts: seq<Attempt>, window: real, limit: int, end: real, n: nat)
    requires Ordered(attempts) && n <= |attempts| && limit >= 0
    ensures |Inner(attempts, window, limit, end, n)| <= limit
  {
    if n == 0 {
      assert Inner(attempts, window, limit, end, n) == {};
    } else {
      hide Inner, Admitted, Ordered, Allowed;
      var m := n - 1;
      if Allowed(attempts, window, limit, m) && end - window <= attempts[m].at < end {
        InnerCounted(attempts, window, limit, end, m);
        WindowBound(attempts, window, limit, attempts[m].at, n);
        SubsetSize(Inner(attempts, window, limit, end, n), Admitted(attempts, window, limit, attempts[m].at, n));
      } else {
        RightOpenBound(attempts, window, limit, end, m);
        InnerStep(attempts, window, limit, end, m);
      }
    }
  }

  lemma {:induction false} LeftEndBound(attempts: seq<Attempt>, window: real, limit: int, at: real, n: nat)
    requires Ordered(attempts) && n <= |attempts| && limit >= 0 && window > 0.0
    ensures |AdmittedAt(attempts, window, limit, at, n)| <= limit
  {
    WindowBound(attempts, window, limit, at, n);
    ClosedSplits(attempts, window, limit, at + window, n);
    assert at + window - window == at;
    hide Admitted, AdmittedAt;
    SubsetSize(AdmittedAt(attempts, window, limit, at, n), Admitted(attempts, window, limit, at, n));
  }

  /** A closed window holds what the half-open one does and what was admitted exactly at its left end:
      at most twice the limit, and more than the limit only when attempts were admitted at both ends. */
  lemma {:induction false} ClosedWindowBound(attempts: seq<Attempt>, window: real, limit: int, end: real, n: nat)
    requires Ordered(attempts) && n <= |attempts| && limit >= 0 && window > 0.0
    ensures var closed := Closed(attempts, window, limit, end, n);
            var left := AdmittedAt(attempts, window, limit, end - window, n);
            var right := AdmittedAt(attempts, window, limit, end, n);
            && |closed| == |Admitted(attempts, window, limit, end, n)| + |left|
            && |closed| <= 2 * limit
            && (|closed| > limit ==> left != {} && right != {})
  {
    hide Closed, Inner, Admitted, AdmittedAt, Ordered;
    ClosedSplits(attempts, window, limit, end, n);
    WindowBound(attempts, window, limit, end, n);
    LeftEndBound(attempts, window, limit, end - window, n);
    RightOpenBound(attempts, window, limit, end, n);
    assert Inner(attempts, window, limit, end, n) + {} == Inner(attempts, window, limit, end, n);
  }

  /** The bound is met: with a limit of one, two attempts exactly one window apart are both admitted. */
  lemma {:induction false} ClosedWindowExceeds()
    ensures var attempts := [Attempt(0, 0.0), Attempt(1, 1.0)];
            Ordered(attempts) && |Closed(attempts, 1.0, 1, 1.0, 2)| == 2
  {
    var attempts := [Attempt(0, 0.0), Attempt(1, 1.0)];
    assert Recent(attempts[..1], 1.0, 0.0) == {attempts[0]};
    assert Recent(attempts[..2], 1.0, 1.0) == {attempts[1]};
    assert Allowed(attempts, 1.0, 1, 0) && Allowed(attempts, 1.0, 1, 1);
    assert Closed(attempts, 1.0, 1, 1.0, 2) == {attempts[0], attempts[1]};
  }

  /** One pipeline on a sorted set: ZREMRANGEBYSCORE 0..now - window, then ZADD of the new member. A
      set that expired is gone before. */
  function Pipeline(stored: set<Attempt>, expired: bool, window: real, member: Attempt): set<Attempt> {
    (set a <- (if expired then {} else stored) | !(0.0 <= a.at <= member.at - window)) + {member}
  }

  /** What is stored for a key, given every attempt ever made on it, allowed or not. */
  ghost predicate KeyOk(tried: seq<Attempt>, stored: set<Attempt>, expires: real, window: real, minted: nat) {
    && Ordered(tried)
    && (forall i :: 0 <= i < |tried| ==> tried[i].id < minted && tried[i].at >= 0.0)
    && (if tried == [] then stored == {}
        else
          && stored == Recent(tried, window, tried[|tried| - 1].at)
          && expires == tried[|tried| - 1].at + window)
  }

  /** After the pipeline the set is again exactly the attempts of the last window. */
  lemma {:induction false} PipelineKeepsKey(tried: seq<Attempt>, stored: set<Attempt>, expires: real, window: real,
                                            minted: nat, now: real)
    requires KeyOk(tried, stored, expires, window, minted) && window > 0.0 && now >= 0.0
    requires tried != [] ==> now >= tried[|tried| - 1].at
    ensures var member := Attempt(minted, now);
            KeyOk(tried + [member], Pipeline(stored, tried != [] && expires <= now, window, member),
                  now + window, window, minted + 1)
  {
    var member := Attempt(minted, now);
    var all := tried + [member];
    var after := Pipeline(stored, tried != [] && expires <= now, window, member);
    forall a | a in Recent(all, window, now) ensures a in after {
      var i :| 0 <= i < |all| && all[i] == a;
      if i < |tried| { assert tried[i] == a; }
    }
    forall a | a in after ensures a in Recent(all, window, now) {
      if a == member {
        assert all[|tried|] == member;
      } else {
        var i :| 0 <= i < |tried| && tried[i] == a;
        assert all[i] == a;
      }
    }
    assert after == Recent(all, window, now);
  }

  lemma {:induction false} KeyOkLater(tried: seq<Attempt>, stored: set<Attempt>, expires: real, window: real,
                                      minted: nat)
    requires KeyOk(tried, stored, expires, window, minted)
    ensures KeyOk(tried, stored, expires, window, minted + 1)
  {
  }

  /** The attempt of a request on a key was let through. */
  ghost predicate LetIn(before: seq<Attempt>, after: seq<Attempt>, window: real, limit: int, now: real) {
    exists n :: |before| <= n < |after| && after[n].at == now && Allowed(after, window, limit, n)
  }

  lemma {:induction false} LetInStays(before: seq<Attempt>, mid: seq<Attempt>, after: seq<Attempt>, window: real,
                                      limit: int, now: real)
    requires LetIn(before, mid, window, limit, now) && mid <= after
    ensures LetIn(before, after, window, limit, now)
  {
    var n :| |before| <= n < |mid| && mid[n].at == now && Allowed(mid, window, limit, n);
    assert after[..n + 1] == mid[..n + 1] && after[n] == mid[n];
    assert Allowed(after, window, limit, n);
  }

  /** The content of the store: sorted sets and expiry times by key, and every attempt ever made. */
  datatype Store = Store(members: map<string, set<Attempt>>, expires: map<string, real>,
                         tried: map<string, seq<Attempt>>) {
    function Tried(key: string): seq<Attempt> { if key in tried then tried[key] else [] }
    function Stored(key: string): set<Attempt> { if key in members then members[key] else {} }
    function Expiry(key: string): real { if key in expires then expires[key] else 0.0 }
  }

  ghost predicate StoreOk(s: Store, window: real, minted: nat) {
    && window > 0.0
    && forall key ::
         && KeyOk(s.Tried(key), s.Stored(key), s.Expiry(key), window, minted)
         && (key in s.expires <==> s.Tried(key) != [])
  }

  /** Time does not run backwards. */
  ghost predicate NotBefore(s: Store, now: real) {
    now >= 0.0 && forall key :: s.Tried(key) != [] ==> now >= s.Tried(key)[|s.Tried(key)| - 1].at
  }

  function Attempted(s: Store, key: string, window: real, member: Attempt): Store {
    Store(s.members[key := Pipeline(s.Stored(key), key in s.expires && s.expires[key] <= member.at, window, member)],
          s.expires[key := member.at + window],
          s.tried[key := s.Tried(key) + [member]])
  }

  lemma {:induction false} AttemptKeepsKey(s: Store, key: string, window: real, minted: nat, now: real, k: string)
    requires StoreOk(s, window, minted) && NotBefore(s, now)
    ensures var t := Attempted(s, key, window, Attempt(minted, now));
            && KeyOk(t.Tried(k), t.Stored(k), t.Expiry(k), window, minted + 1)
            && (k in t.expires <==> t.Tried(k) != [])
            && (t.Tried(k) != [] ==> now >= t.Tried(k)[|t.Tried(k)| - 1].at)
  {
    hide KeyOk, Pipeline;
    assert KeyOk(s.Tried(k), s.Stored(k), s.Expiry(k), window, minted) && (k in s.expires <==> s.Tried(k) != []);
    assert s.Tried(k) != [] ==> now >= s.Tried(k)[|s.Tried(k)| - 1].at;
    hide StoreOk, NotBefore;
    if k == key {
      PipelineKeepsKey(s.Tried(k), s.Stored(k), s.Expiry(k), window, minted, now);
    } else {
      KeyOkLater(s.Tried(k), s.Stored(k), s.Expiry(k), window, minted);
    }
  }

  /** An attempt keeps every stored set equal to its key's attempts of the last window. */
  lemma {:induction false} AttemptKeeps(s: Store, key: string, window: real, minted: nat, now: real)
    requires StoreOk(s, window, minted) && NotBefore(s, now)
    ensures var t := Attempted(s, key, window, Attempt(minted, now));
            StoreOk(t, window, minted + 1) && NotBefore(t, now)
  {
    hide KeyOk, Pipeline, Attempted;
    forall k ensures var t := Attempted(s, key, window, Attempt(minted, now));
        && KeyOk(t.Tried(k), t.Stored(k), t.Expiry(k), window, minted + 1)
        && (k in t.expires <==> t.Tried(k) != [])
        && (t.Tried(k) != [] ==> now >= t.Tried(k)[|t.Tried(k)| - 1].at)
    {
      AttemptKeepsKey(s, key, window, minted, now, k);
    }
  }

  lemma {:induction false} VerdictIsWindow(s: Store, key: string, window: real, minted: nat, now: real, limit: int)
    requires StoreOk(s, window, minted) && NotBefore(s, now)
    ensures var t := Attempted(s, key, window, Attempt(minted, now));
            |t.Stored(key)| <= limit <==> Allowed(t.Tried(key), window, limit, |t.Tried(key)| - 1)
  {
    hide Pipeline, StoreOk, NotBefore;
    var t := Attempted(s, key, window, Attempt(minted, now));
    AttemptKeepsKey(s, key, window, minted, now, key);
    assert t.Tried(key)[..|t.Tried(key)|] == t.Tried(key);
  }

  /** The limiter over Redis; `tried` is the history it never looks at. */
  class Limiter {
    const window: real
    var members: map<string, set<Attempt>>
    var expires: map<string, real>
    var minted: nat
    ghost var tried: map<string, seq<Attempt>>

    ghost function State(): Store reads this { Store(members, expires, tried) }

    ghost predicate Valid() reads this { StoreOk(State(), window, minted) }

    constructor (window: real)
      requires window > 0.0
      ensures Valid() && this.window == window && State() == Store(map[], map[], map[])
    {
      this.window, members, expires, minted, tried := window, map[], map[], 0, map[];
    }

    /** Drop what left the window, add this attempt, count, renew the expiry. */
    method Allow(key: string, limit: int, now: real) returns (ok: bool)
      requires Valid() && NotBefore(State(), now)
      modifies this
      ensures Valid() && NotBefore(State(), now)
      ensures State() == Attempted(old(State()), key, window, Attempt(old(minted), now)) && minted == old(minted) + 1
      ensures ok == Allowed(State().Tried(key), window, limit, |State().Tried(key)| - 1)
    {
      hide StoreOk, NotBefore, Pipeline, Allowed;
      var member := Attempt(minted, now);
      var stored := Pipeline(if key in members then members[key] else {}, key in expires && expires[key] <= now,
                             window, member);
      AttemptKeeps(State(), key, window, minted, now);
      VerdictIsWindow(State(), key, window, minted, now, limit);
      tried := tried[key := State().Tried(key) + [member]];
      members, expires, minted := members[key := stored], expires[key := now + window], minted + 1;
      return |stored| <= limit;
    }

    /** The checks of a chat request, in order; the first key over its limit ends it, so later keys do
        not count the attempt. A request that passes was let in under every key. */
    method EnforceChatLimits(checks: seq<(string, int)>, now: real) returns (ok: bool)
      requires Valid() && NotBefore(State(), now)
      modifies this
      ensures Valid() && NotBefore(State(), now)
      ensures forall key :: old(State()).Tried(key) <= State().Tried(key)
      ensures ok ==> forall i :: 0 <= i < |checks| ==>
                LetIn(old(State()).Tried(checks[i].0), State().Tried(checks[i].0), window, checks[i].1, now)
    {
      hide StoreOk, NotBefore, Pipeline, Allowed;
      for i := 0 to |checks|
        invariant Valid() && NotBefore(State(), now)
        invariant forall key :: old(State()).Tried(key) <= State().Tried(key)
        invariant forall j :: 0 <= j < i ==>
                    LetIn(old(State()).Tried(checks[j].0), State().Tried(checks[j].0), window, checks[j].1, now)
      {
        ghost var before := State();
        ok := Allow(checks[i].0, checks[i].1, now);
        if !ok { return false; }
        assert LetIn(old(State()).Tried(checks[i].0), State().Tried(checks[i].0), window, checks[i].1, now);
        hide LetIn, Attempted;
        forall j | 0 <= j < i
          ensures LetIn(old(State()).Tried(checks[j].0), State().Tried(checks[j].0), window, checks[j].1, now)
        {
          LetInStays(old(State()).Tried(checks[j].0), before.Tried(checks[j].0), State().Tried(checks[j].0), window,
                     checks[j].1, now);
        }
      }
      return true;
    }
  }
}
