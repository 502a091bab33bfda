/** Sign-in and refresh-token rotation: one live token per sign-in, each exchanged at most once. */
module RefreshTokens {
  import opened Wallet

  type User = nat
  type Device = string

  /** A row of `auth_refresh_tokens`. Secrets are random and stored hashed, so presenting one names at
      most one row: a token is the number of its row. */
  datatype Token = Token(user: User, device: Device, expiresAt: int, used: bool, revoked: bool)

  datatype Auth = Auth(devices: map<Device, User>, identities: map<string, User>, tokens: seq<Token>, nextUser: User)

  datatype Request =
    | SignIn(device: Device)
    | AppleSignIn(subject: string, device: Device)
    | Refresh(token: nat)

  /** `Issued` carries the new token; everything else is a 401 and issues nothing. */
  datatype Answer = Issued(token: nat) | Unknown | Reused | Revoked | Expired

  predicate Chain(t: Token, u: User, d: Device) { t.user == u && t.device == d }
  predicate Live(t: Token) { !t.used && !t.revoked }

  /** The unused and unrevoked tokens of a (user, device) chain. */
  function LiveCount(tokens: seq<Token>, u: User, d: Device): nat {
    if tokens == [] then 0
    else
      var last := tokens[|tokens| - 1];
      LiveCount(tokens[..|tokens| - 1], u, d) + if Chain(last, u, d) && Live(last) then 1 else 0
  }

  function FindOrCreate(a: Auth, d: Device): (Auth, User) {
    if d in a.devices then (a, a.devices[d])
    else (a.(devices := a.devices[d := a.nextUser], nextUser := a.nextUser + 1), a.nextUser)
  }

  function Issue(a: Auth, u: User, d: Device, expiresAt: int): (Auth, Answer) {
    (a.(tokens := a.tokens + [Token(u, d, expiresAt, false, false)]), Issued(|a.tokens|))
  }

  /** A known Apple identity keeps its user; a new one takes the device's user, unless that user has
      another Apple identity already. */
  function ResolveApple(a: Auth, subject: string, d: Device): (Auth, User) {
    if subject in a.identities then (a, a.identities[subject])
    else
      var (b, u) := FindOrCreate(a, d);
      if u !in b.identities.Values then (b.(identities := b.identities[subject := u]), u)
      else (b.(identities := b.identities[subject := b.nextUser], nextUser := b.nextUser + 1), b.nextUser)
  }

  function Revoke(tokens: seq<Token>, u: User, d: Device): (r: seq<Token>)
    ensures |r| == |tokens|
    ensures forall i :: 0 <= i < |r| ==> r[i] == if Chain(tokens[i], u, d) then tokens[i].(revoked := true) else tokens[i]
  {
    seq(|tokens|, i requires 0 <= i < |tokens| => if Chain(tokens[i], u, d) then tokens[i].(revoked := true) else tokens[i])
  }

  function Handle(a: Auth, r: Request, now: int, ttl: int): (Auth, Answer) {
    match r
    case SignIn(d) =>
      var (b, u) := FindOrCreate(a, d);
      Issue(b, u, d, now + ttl)
    case AppleSignIn(subject, d) =>
      var (b, u) := ResolveApple(a, subject, d);
      Issue(b.(devices := b.devices[d := u]), u, d, now + ttl)
    case Refresh(id) =>
      if id >= |a.tokens| then (a, Unknown)
      else
        var t := a.tokens[id];
        if t.used then (a.(tokens := Revoke(a.tokens, t.user, t.device)), Reused)
        else if t.revoked then (a, Revoked)
        else if t.expiresAt <= now then (a, Expired)
        else Issue(a.(tokens := a.tokens[id := t.(used := true)]), t.user, t.device, now + ttl)
  }

  // ---- counting live tokens ----

  lemma {:induction false} LiveSnoc(tokens: seq<Token>, t: Token, u: User, d: Device)
    ensures LiveCount(tokens + [t], u, d) == LiveCount(tokens, u, d) + if Chain(t, u, d) && Live(t) then 1 else 0
  {
    assert (tokens + [t])[..|tokens|] == tokens;
  }

  lemma {:induction false} LiveUpdate(tokens: seq<Token>, i: nat, t: Token, u: User, d: Device)
    requires i < |tokens|
    ensures LiveCount(tokens[i := t], u, d) ==
            LiveCount(tokens, u, d) - (if Chain(tokens[i], u, d) && Live(tokens[i]) then 1 else 0)
                                    + (if Chain(t, u, d) && Live(t) then 1 else 0)
  {
    var n := |tokens| - 1;
    if i == n {
      assert tokens[i := t][..n] == tokens[..n];
    } else {
      LiveUpdate(tokens[..n], i, t, u, d);
      assert tokens[i := t][..n] == tokens[..n][i := t];
    }
  }

  lemma {:induction false} LiveRevoked(tokens: seq<Token>, v: User, e: Device, u: User, d: Device)
    ensures LiveCount(Revoke(tokens, v, e), u, d) == if u == v && d == e then 0 else LiveCount(tokens, u, d)
  {
    if tokens != [] {
      var n := |tokens| - 1;
      LiveRevoked(tokens[..n], v, e, u, d);
      assert Revoke(tokens, v, e)[..n] == Revoke(tokens[..n], v, e);
    }
  }

  /** The chain a request works on, after its device or identity has been resolved. */
  function ChainOf(a: Auth, r: Request): (User, Device) {
    match r
    case SignIn(d) => (FindOrCreate(a, d).1, d)
    case AppleSignIn(subject, d) => (ResolveApple(a, subject, d).1, d)
    case Refresh(id) => if id < |a.tokens| then (a.tokens[id].user, a.tokens[id].device) else (a.nextUser, "")
  }

  /** Conservation: a sign-in adds one live token to its chain, a successful refresh leaves the number
      as it was, a detected reuse makes it zero, and nothing touches another chain. */
  lemma {:induction false} LiveConserved(a: Auth, r: Request, now: int, ttl: int, u: User, d: Device)
    ensures var (b, answer) := Handle(a, r, now, ttl);
            LiveCount(b.tokens, u, d) ==
              if (u, d) != ChainOf(a, r) then LiveCount(a.tokens, u, d)
              else if !r.Refresh? then LiveCount(a.tokens, u, d) + 1
              else if answer.Reused? then 0
              else LiveCount(a.tokens, u, d)
  {
    hide LiveCount;
    match r
    case SignIn(device) =>
      LiveSnoc(a.tokens, Token(FindOrCreate(a, device).1, device, now + ttl, false, false), u, d);
    case AppleSignIn(subject, device) =>
      LiveSnoc(a.tokens, Token(ResolveApple(a, subject, device).1, device, now + ttl, false, false), u, d);
    case Refresh(id) =>
      if id < |a.tokens| {
        var t := a.tokens[id];
        LiveRevoked(a.tokens, t.user, t.device, u, d);
        LiveUpdate(a.tokens, id, t.(used := true), u, d);
        LiveSnoc(a.tokens[id := t.(used := true)], Token(t.user, t.device, now + ttl, false, false), u, d);
      }
  }

  // ---- what a token's row can become ----

  /** Rows stay, keep their owner, and never become unused or unrevoked again. */
  ghost predicate Ages(a: seq<Token>, b: seq<Token>) {
    && |a| <= |b|
    && forall i :: 0 <= i < |a| ==>
         && b[i].user == a[i].user && b[i].device == a[i].device && b[i].expiresAt == a[i].expiresAt
         && (a[i].used ==> b[i].used) && (a[i].revoked ==> b[i].revoked)
  }

  lemma {:induction false} HandleAges(a: Auth, r: Request, now: int, ttl: int)
    ensures Ages(a.tokens, Handle(a, r, now, ttl).0.tokens)
  {
  }

  /** A refresh is answered with a new pair exactly for a known, unused, unrevoked, unexpired token,
      which is used from then on. */
  lemma {:induction false} RefreshAccepts(a: Auth, id: nat, now: int, ttl: int)
    ensures var (b, answer) := Handle(a, Refresh(id), now, ttl);
            && (answer.Issued? <==> id < |a.tokens| && Live(a.tokens[id]) && now < a.tokens[id].expiresAt)
            && (answer.Issued? ==> b.tokens[id].used && answer.token == |a.tokens| && Live(b.tokens[answer.token]))
            && (answer.Reused? ==>
                  forall i :: 0 <= i < |a.tokens| && Chain(a.tokens[i], a.tokens[id].user, a.tokens[id].device) ==>
                  b.tokens[i].revoked)
  {
  }

  // ---- any run ----

  datatype Event = Event(request: Request, now: int)

  function Play(a: Auth, events: seq<Event>, ttl: int): Auth {
    if events == [] then a
    else
      var n := |events| - 1;
      Handle(Play(a, events[..n], ttl), events[n].request, events[n].now, ttl).0
  }

  /** The i-th request exchanged this token for a new pair. */
  predicate Exchanges(a: Auth, events: seq<Event>, ttl: int, i: nat, id: nat)
    requires i < |events|
  {
    events[i].request == Refresh(id) && Handle(Play(a, events[..i], ttl), events[i].request, events[i].now, ttl).1.Issued?
  }

  lemma {:induction false} PlayStep(a: Auth, events: seq<Event>, ttl: int, i: nat)
    requires i < |events|
    ensures Play(a, events[..i + 1], ttl) == Handle(Play(a, events[..i], ttl), events[i].request, events[i].now, ttl).0
  {
    hide Handle;
    var some := events[..i + 1];
    assert some[..i] == events[..i] && some[i] == events[i] && |some| - 1 == i;
  }

  lemma {:induction false} PlayAges(a: Auth, events: seq<Event>, ttl: int, i: nat)
    requires i <= |events|
    ensures Ages(Play(a, events[..i], ttl).tokens, Play(a, events, ttl).tokens)
    decreases |events| - i
  {
    hide Handle;
    if i == |events| {
      assert events[..i] == events;
    } else {
      PlayStep(a, events, ttl, i);
      HandleAges(Play(a, events[..i], ttl), events[i].request, events[i].now, ttl);
      PlayAges(a, events, ttl, i + 1);
    }
  }

  lemma {:induction false} StaysDead(a: seq<Token>, b: seq<Token>, id: nat)
    requires Ages(a, b) && id < |a| && !Live(a[id])
    ensures !Live(b[id])
  {
    assert b[id].user == a[id].user;
  }

  /** No token is ever exchanged twice, and none after the state in which it was revoked. */
  lemma {:induction false} ExchangedOnce(a: Auth, events: seq<Event>, ttl: int, i: nat, j: nat, id: nat)
    requires i < j < |events| && Exchanges(a, events, ttl, j, id)
    ensures !Exchanges(a, events, ttl, i, id)
    ensures var seen := Play(a, events[..i], ttl).tokens; id < |seen| ==> !seen[id].revoked && !seen[id].used
  {
    hide Handle;
    var before := events[..j];
    assert before[..i] == events[..i] && before[..i + 1] == events[..i + 1];
    PlayStep(a, events, ttl, i);
    HandleAges(Play(a, events[..i], ttl), events[i].request, events[i].now, ttl);
    PlayAges(a, before, ttl, i);
    PlayAges(a, before, ttl, i + 1);
    RefreshAccepts(Play(a, before, ttl), id, events[j].now, ttl);
    RefreshAccepts(Play(a, events[..i], ttl), id, events[i].now, ttl);
    var now, seen := Play(a, before, ttl).tokens, Play(a, events[..i], ttl).tokens;
    var later := Play(a, events[..i + 1], ttl).tokens;
    assert Live(now[id]);
    assert id < |seen| ==> Live(seen[id]) by { if id < |seen| && !Live(seen[id]) { StaysDead(seen, now, id); } }
    assert id < |later| ==> Live(later[id]) by { if id < |later| && !Live(later[id]) { StaysDead(later, now, id); } }
  }

  /** After a detected reuse, no token that the chain had by then is ever accepted again. */
  lemma {:induction false} ReuseEndsChain(a: Auth, events: seq<Event>, ttl: int, i: nat, j: nat, id: nat, other: nat)
    requires i < j < |events| && events[i].request == Refresh(id)
    requires Handle(Play(a, events[..i], ttl), events[i].request, events[i].now, ttl).1.Reused?
    requires id < |Play(a, events[..i], ttl).tokens| && other < |Play(a, events[..i], ttl).tokens|
    requires var tokens := Play(a, events[..i], ttl).tokens; Chain(tokens[other], tokens[id].user, tokens[id].device)
    ensures !Exchanges(a, events, ttl, j, other)
  {
    hide Handle;
    var before := events[..j];
    assert before[..i + 1] == events[..i + 1];
    PlayStep(a, events, ttl, i);
    HandleAges(Play(a, events[..i], ttl), events[i].request, events[i].now, ttl);
    PlayAges(a, before, ttl, i + 1);
    RefreshAccepts(Play(a, events[..i], ttl), id, events[i].now, ttl);
    RefreshAccepts(Play(a, before, ttl), other, events[j].now, ttl);
    StaysDead(Play(a, events[..i + 1], ttl).tokens, Play(a, before, ttl).tokens, other);
  }

  /** A refused token names its obstacle: no such row, exchanged before, revoked, or out of time; only the
      second changes anything. */
  lemma {:induction false} RefusalNamesObstacle(a: Auth, id: nat, now: int, ttl: int)
    ensures var (b, answer) := Handle(a, Refresh(id), now, ttl);
            && (answer.Unknown? <==> id >= |a.tokens|)
            && (answer.Reused? <==> id < |a.tokens| && a.tokens[id].used)
            && (answer.Revoked? <==> id < |a.tokens| && !a.tokens[id].used && a.tokens[id].revoked)
            && (answer.Expired? <==> id < |a.tokens| && Live(a.tokens[id]) && a.tokens[id].expiresAt <= now)
            && (!answer.Issued? && !answer.Reused? ==> b == a)
  {
  }

  /** Whom a new token is for: the owner of the device, the user of the Apple identity who then owns the
      device, or the owner of the token that was exchanged. */
  predicate IssuedTo(a: Auth, r: Request, b: Auth, t: Token) {
    match r
    case SignIn(d) =>
      t.device == d && d in b.devices && b.devices[d] == t.user && (d in a.devices ==> t.user == a.devices[d])
    case AppleSignIn(subject, d) =>
      && t.device == d && d in b.devices && b.devices[d] == t.user
      && subject in b.identities && b.identities[subject] == t.user
    case Refresh(id) => id < |a.tokens| && t.user == a.tokens[id].user && t.device == a.tokens[id].device
  }

  /** How long a new token lasts: whatever happens after it was issued at `now`, it is exchanged at every
      time before `now + ttl`, unless it was exchanged or revoked meanwhile, and at none from then on. Right
      after it was issued it is neither. */
  lemma {:induction false} FreshTokenLasts(a: Auth, r: Request, now: int, ttl: int, events: seq<Event>, later: int)
    requires Handle(a, r, now, ttl).1.Issued?
    ensures var (b, answer) := Handle(a, r, now, ttl);
            && answer.token == |a.tokens| && |b.tokens| == |a.tokens| + 1
            && Live(b.tokens[answer.token]) && IssuedTo(a, r, b, b.tokens[answer.token])
            && var c := Play(b, events, ttl);
            && answer.token < |c.tokens|
            && (Handle(c, Refresh(answer.token), later, ttl).1.Issued? <==>
                  Live(c.tokens[answer.token]) && later < now + ttl)
            && (Live(c.tokens[answer.token]) && later >= now + ttl ==>
                  Handle(c, Refresh(answer.token), later, ttl).1.Expired?)
  {
    hide Handle, Live, IssuedTo;
    var (b, answer) := Handle(a, r, now, ttl);
    IssuedAt(a, r, now, ttl);
    assert events[..0] == [];
    PlayAges(b, events, ttl, 0);
    RefreshAccepts(Play(b, events, ttl), answer.token, later, ttl);
    RefusalNamesObstacle(Play(b, events, ttl), answer.token, later, ttl);
  }

  lemma {:induction false} IssuedAt(a: Auth, r: Request, now: int, ttl: int)
    requires Handle(a, r, now, ttl).1.Issued?
    ensures var (b, answer) := Handle(a, r, now, ttl);
            && answer.token == |a.tokens| && |b.tokens| == |a.tokens| + 1
            && Live(b.tokens[answer.token]) && b.tokens[answer.token].expiresAt == now + ttl
            && IssuedTo(a, r, b, b.tokens[answer.token])
  {
  }

  // ---- identities ----

  /** Users exist before they are referred to, and no two Apple identities share one. */
  ghost predicate UsersOk(a: Auth) {
    && (forall d :: d in a.devices ==> a.devices[d] < a.nextUser)
    && (forall s :: s in a.identities ==> a.identities[s] < a.nextUser)
    && (forall s, t :: s in a.identities && t in a.identities && a.identities[s] == a.identities[t] ==> s == t)
  }

  lemma {:induction false} FindKeepsUsers(a: Auth, d: Device)
    requires UsersOk(a)
    ensures var (b, u) := FindOrCreate(a, d);
            UsersOk(b) && b.identities == a.identities && u < b.nextUser && a.nextUser <= b.nextUser
  {
  }

  lemma {:induction false} LinkKeepsUsers(a: Auth, subject: string, u: User, next: User)
    requires UsersOk(a) && subject !in a.identities && u < next && a.nextUser <= next
    requires forall s :: s in a.identities ==> a.identities[s] != u
    ensures UsersOk(a.(identities := a.identities[subject := u], nextUser := next))
  {
  }

  lemma {:induction false} ResolveKeepsUsers(a: Auth, subject: string, d: Device)
    requires UsersOk(a)
    ensures var (b, u) := ResolveApple(a, subject, d);
            && UsersOk(b) && u < b.nextUser
            && subject in b.identities && b.identities[subject] == u
            && forall s :: s in a.identities ==> s in b.identities && b.identities[s] == a.identities[s]
  {
    hide FindOrCreate;
    if subject !in a.identities {
      FindKeepsUsers(a, d);
      var (b, u) := FindOrCreate(a, d);
      forall s | s in b.identities ensures b.identities[s] in b.identities.Values { }
      if u !in b.identities.Values {
        LinkKeepsUsers(b, subject, u, b.nextUser);
      } else {
        LinkKeepsUsers(b, subject, b.nextUser, b.nextUser + 1);
      }
    }
  }

  /** A user keeps their Apple identity for good, however devices change hands. */
  lemma {:induction false} IdentitiesKept(a: Auth, r: Request, now: int, ttl: int)
    requires UsersOk(a)
    ensures var b := Handle(a, r, now, ttl).0;
            && UsersOk(b)
            && (forall s :: s in a.identities ==> s in b.identities && b.identities[s] == a.identities[s])
            && (r.AppleSignIn? ==> r.subject in b.identities && b.devices[r.device] == b.identities[r.subject])
  {
    hide FindOrCreate, ResolveApple;
    match r
    case SignIn(d) => FindKeepsUsers(a, d);
    case AppleSignIn(subject, d) => ResolveKeepsUsers(a, subject, d);
    case Refresh(_) =>
  }

  /** Who a sign-in is: the owner of a known device, the user of a known Apple identity, or for a new identity
      the owner of the device, if nobody else's identity is theirs; in every other case a user that nothing
      has referred to before. No other device or identity changes hands, and a refresh changes none. */
  lemma {:induction false} WhoSignsIn(a: Auth, r: Request, now: int, ttl: int)
    requires UsersOk(a)
    ensures var b := Handle(a, r, now, ttl).0;
            match r
            case SignIn(d) =>
              && d in b.devices && b.identities == a.identities
              && (if d in a.devices then b.devices == a.devices else b.devices[d] >= a.nextUser)
              && forall e :: e != d ==>
                   (e in b.devices <==> e in a.devices) && (e in a.devices ==> b.devices[e] == a.devices[e])
            case AppleSignIn(subject, d) =>
              && d in b.devices && subject in b.identities && b.devices[d] == b.identities[subject]
              && var taken := exists s :: s in a.identities && d in a.devices && a.identities[s] == a.devices[d];
              && (if subject in a.identities then b.identities == a.identities
                  else if d in a.devices && !taken then b.identities[subject] == a.devices[d]
                  else b.identities[subject] >= a.nextUser)
              && (forall e :: e != d ==>
                   (e in b.devices <==> e in a.devices) && (e in a.devices ==> b.devices[e] == a.devices[e]))
              && (forall s :: s != subject ==>
                    (s in b.identities <==> s in a.identities) && (s in a.identities ==> b.identities[s] == a.identities[s]))
            case Refresh(_) => b.devices == a.devices && b.identities == a.identities
  {
    if r.AppleSignIn? && r.subject !in a.identities {
      var (b, u) := FindOrCreate(a, r.device);
      if u in b.identities.Values {
        var s :| s in b.identities && b.identities[s] == u;
        assert r.device in a.devices;
      } else {
        forall s | s in a.identities ensures a.identities[s] != u { assert a.identities[s] in b.identities.Values; }
      }
    }
  }

  // ---- the service ----

  class AuthService {
    const ttl: int
    var devices: map<Device, User>
    var identities: map<string, User>
    var tokens: seq<Token>
    var nextUser: User

    function State(): Auth reads this { Auth(devices, identities, tokens, nextUser) }

    constructor (ttl: int)
      ensures this.ttl == ttl && State() == Auth(map[], map[], [], 0) && UsersOk(State())
    {
      this.ttl, devices, identities, tokens, nextUser := ttl, map[], map[], [], 0;
    }

    method FindOrCreateIdentity(d: Device) returns (u: User)
      modifies this
      ensures (State(), u) == FindOrCreate(old(State()), d)
    {
      if d in devices { return devices[d]; }
      u := nextUser;
      nextUser := nextUser + 1;
      devices := devices[d := u];
    }

    method IssuePair(u: User, d: Device, now: int) returns (answer: Answer)
      modifies this`tokens
      ensures (State(), answer) == Issue(old(State()), u, d, now + ttl)
    {
      answer := Issued(|tokens|);
      tokens := tokens + [Token(u, d, now + ttl, false, false)];
    }

    method RegisterOrToken(d: Device, now: int) returns (answer: Answer)
      modifies this
      ensures (State(), answer) == Handle(old(State()), SignIn(d), now, ttl)
    {
      var u := FindOrCreateIdentity(d);
      answer := IssuePair(u, d, now);
    }

    method SignInWithApple(subject: string, d: Device, now: int) returns (answer: Answer)
      modifies this
      ensures (State(), answer) == Handle(old(State()), AppleSignIn(subject, d), now, ttl)
    {
      var target: User;
      if subject in identities {
        target := identities[subject];
      } else {
        target := FindOrCreateIdentity(d);
        if target in identities.Values {
          target := nextUser;
          nextUser := nextUser + 1;
        }
        identities := identities[subject := target];
      }
      devices := devices[d := target];
      answer := IssuePair(target, d, now);
    }

    /** UPDATE auth_refresh_tokens SET revoked_at = now() for the chain. */
    method RevokeChain(u: User, d: Device)
      modifies this`tokens
      ensures tokens == Revoke(old(tokens), u, d)
    {
      for i := 0 to |tokens|
        invariant |tokens| == |old(tokens)|
        invariant forall j :: 0 <= j < |tokens| ==>
            tokens[j] == if j < i then Revoke(old(tokens), u, d)[j] else old(tokens)[j]
      {
        if tokens[i].user == u && tokens[i].device == d && !tokens[i].revoked {
          tokens := tokens[i := tokens[i].(revoked := true)];
        }
      }
    }

    method RefreshPair(id: nat, now: int) returns (answer: Answer)
      modifies this
      ensures (State(), answer) == Handle(old(State()), Refresh(id), now, ttl)
    {
      if id >= |tokens| { return Unknown; }
      var t := tokens[id];
      if t.used {
        RevokeChain(t.user, t.device);
        return Reused;
      }
      if t.revoked { return Revoked; }
      if t.expiresAt <= now { return Expired; }
      tokens := tokens[id := t.(used := true)];
      answer := IssuePair(t.user, t.device, now);
    }
  }
}
