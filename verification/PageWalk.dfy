/** Keyset pagination of the chat list, and the opaque cursor that carries its position. */
module PageWalk {
  import opened Wallet

  /** What ordering and cursors see of a row of `chat_sessions`. */
  datatype ChatRow = ChatRow(pinned: bool, updated: int, id: nat)

  function Ord(b: bool): int { if b then 1 else 0 }

  /** The keyset condition: `row` comes strictly after `at` in (pinned, updated_at, id) DESC order. */
  predicate After(at: ChatRow, row: ChatRow) {
    || Ord(row.pinned) < Ord(at.pinned)
    || (Ord(row.pinned) == Ord(at.pinned) && row.updated < at.updated)
    || (Ord(row.pinned) == Ord(at.pinned) && row.updated == at.updated && row.id < at.id)
  }

  /** `id` is the primary key. */
  ghost predicate KeysUnique(rows: set<ChatRow>) {
    forall a, b :: a in rows && b in rows && a.id == b.id ==> a == b
  }

  ghost predicate IsFirst(rows: set<ChatRow>, r: ChatRow) {
    r in rows && forall x :: x in rows && x != r ==> After(r, x)
  }

  lemma {:induction false} FirstExists(rows: set<ChatRow>)
    requires rows != {} && KeysUnique(rows)
    ensures exists first :: IsFirst(rows, first)
  {
    var r :| r in rows;
    var rest := rows - {r};
    if rest == {} {
      assert rows == {r};
      assert IsFirst(rows, r);
    } else {
      FirstExists(rest);
      var f :| IsFirst(rest, f);
      assert f.id != r.id;
      var first := if After(r, f) then r else f;
      forall x | x in rows && x != first ensures After(first, x) {
        if x != r && x != f { assert x in rest && After(f, x); }
      }
      assert IsFirst(rows, first);
    }
  }

  /** ORDER BY pinned DESC, updated_at DESC, id DESC. */
  ghost function Ordered(rows: set<ChatRow>): (r: seq<ChatRow>)
    requires KeysUnique(rows)
    ensures |r| == |rows| && forall x :: x in r <==> x in rows
    ensures forall i, j :: 0 <= i < j < |r| ==> After(r[i], r[j])
    decreases |rows|
  {
    if rows == {} then []
    else
      FirstExists(rows);
      var first :| IsFirst(rows, first);
      [first] + Ordered(rows - {first})
  }

  ghost predicate Descending(list: seq<ChatRow>) {
    forall i, j :: 0 <= i < j < |list| ==> After(list[i], list[j])
  }

  lemma {:induction false} HeadsAgree(a: seq<ChatRow>, b: seq<ChatRow>)
    requires a != [] && b != [] && Descending(a) && Descending(b)
    requires a[0] in b && b[0] in a
    ensures a[0] == b[0]
  {
    var j :| 0 <= j < |b| && b[j] == a[0];
    var i :| 0 <= i < |a| && a[i] == b[0];
  }

  lemma {:induction false} TailMembers(rows: set<ChatRow>, list: seq<ChatRow>)
    requires list != [] && Descending(list) && forall x :: x in list <==> x in rows
    ensures forall x :: x in list[1..] <==> x in rows - {list[0]}
    ensures Descending(list[1..])
  {
    forall x ensures x in list[1..] <==> x in rows - {list[0]} {
      if x in rows && x != list[0] {
        var i :| 0 <= i < |list| && list[i] == x;
        assert list[1..][i - 1] == x;
      }
      if x in list[1..] {
        var i :| 0 <= i < |list| - 1 && list[1..][i] == x;
        assert list[i + 1] == x && After(list[0], list[i + 1]);
      }
    }
  }

  lemma {:induction false} OrderedUnfold(rows: set<ChatRow>)
    requires KeysUnique(rows) && rows != {}
    ensures var q := Ordered(rows);
            q != [] && q[0] in rows && KeysUnique(rows - {q[0]}) && q == [q[0]] + Ordered(rows - {q[0]})
  {
  }

  /** A strictly ordered list of the rows of a set is its ordering. */
  lemma {:induction false} OrderingUnique(rows: set<ChatRow>, list: seq<ChatRow>)
    requires KeysUnique(rows) && Descending(list)
    requires forall x :: x in list <==> x in rows
    ensures Ordered(rows) == list
    decreases |list|
  {
    hide After, Ordered;
    if list == [] {
      assert forall x :: x !in rows;
      assert rows == {};
      assert |Ordered(rows)| == 0;
    } else {
      assert list[0] in rows;
      OrderedUnfold(rows);
      hide KeysUnique;
      HeadsAgree(Ordered(rows), list);
      TailMembers(rows, list);
      OrderingUnique(rows - {list[0]}, list[1..]);
      assert list == [list[0]] + list[1..];
    }
  }

  /** Position in the list is the order. */
  lemma {:induction false} AfterIsBehind(q: seq<ChatRow>, i: nat, j: nat)
    requires i < |q| && j < |q| && forall a, b :: 0 <= a < b < |q| ==> After(q[a], q[b])
    ensures After(q[i], q[j]) <==> i < j
  {
    if j < i { assert After(q[j], q[i]); }
  }

  /** The rows a cursor leaves are those listed behind it, in the same order. */
  lemma {:induction false} RestIsSuffix(rows: set<ChatRow>, i: nat)
    requires KeysUnique(rows) && i < |Ordered(rows)|
    ensures var at := Ordered(rows)[i];
            var rest := set x <- rows | After(at, x);
            KeysUnique(rest) && Ordered(rest) == Ordered(rows)[i + 1..]
  {
    hide Ordered;
    var q := Ordered(rows);
    var rest := set x <- rows | After(q[i], x);
    var tail := q[i + 1..];
    assert KeysUnique(rest);
    hide KeysUnique;
    forall x | x in rest ensures x in tail {
      assert x in q;
      var j :| 0 <= j < |q| && q[j] == x;
      AfterIsBehind(q, i, j);
      assert tail[j - i - 1] == x;
    }
    forall x | x in tail ensures x in rest {
      var j :| 0 <= j < |tail| && tail[j] == x;
      assert q[i + 1 + j] == x;
      AfterIsBehind(q, i, i + 1 + j);
      assert x in q;
    }
    hide After;
    forall a, b | 0 <= a < b < |tail| ensures After(tail[a], tail[b]) {
      assert tail[a] == q[i + 1 + a] && tail[b] == q[i + 1 + b];
    }
    OrderingUnique(rest, tail);
  }

  // ---- the cursor ----

  /** Formatters the cursor relies on: ISO timestamps, UUID text, integers, URL-safe base64. */
  datatype Formats = Formats(
    iso: int -> string, parseIso: string -> Option<int>,
    uuid: nat -> string, parseUuid: string -> Option<nat>,
    parseInt: string -> Option<int>,
    pack: string -> string, unpack: string -> Option<string>)

  ghost predicate Lawful(f: Formats) {
    && (forall t :: f.parseIso(f.iso(t)) == Some(t) && '|' !in f.iso(t))
    && (forall u: nat :: f.parseUuid(f.uuid(u)) == Some(u))
    && f.parseInt("0") == Some(0) && f.parseInt("1") == Some(1)
    && (forall s :: f.unpack(f.pack(s)) == Some(s))
  }

  function Encode(f: Formats, r: ChatRow): string {
    f.pack((if r.pinned then "1" else "0") + "|" + f.iso(r.updated) + "|" + f.uuid(r.id))
  }

  /** The text up to the first bar, and the text after it. */
  function Split(s: string): Option<(string, string)> {
    if s == "" then None
    else if s[0] == '|' then Some(("", s[1..]))
    else
      match Split(s[1..])
      case None => None
      case Some((a, b)) => Some(([s[0]] + a, b))
  }

  /** Anything malformed is an invalid cursor. */
  function Decode(f: Formats, s: string): Option<ChatRow> {
    match f.unpack(s)
    case None => None
    case Some(raw) =>
      match Split(raw)
      case None => None
      case Some((flag, tail)) =>
        match Split(tail)
        case None => None
        case Some((updated, id)) =>
          match (f.parseInt(flag), f.parseIso(updated), f.parseUuid(id))
          case (Some(p), Some(t), Some(u)) => Some(ChatRow(p != 0, t, u))
          case _ => None
  }

  lemma {:induction false} SplitJoined(a: string, b: string)
    requires '|' !in a
    ensures Split(a + "|" + b) == Some((a, b))
  {
    if a == "" {
      assert (a + "|" + b)[1..] == b;
    } else {
      assert (a + "|" + b)[1..] == a[1..] + "|" + b;
      SplitJoined(a[1..], b);
      assert a == [a[0]] + a[1..];
    }
  }

  lemma {:induction false} CursorRoundTrip(f: Formats, r: ChatRow)
    requires Lawful(f)
    ensures Decode(f, Encode(f, r)) == Some(r)
  {
    var flag := if r.pinned then "1" else "0";
    var tail := f.iso(r.updated) + "|" + f.uuid(r.id);
    assert flag + "|" + f.iso(r.updated) + "|" + f.uuid(r.id) == flag + "|" + tail;
    SplitJoined(flag, tail);
    SplitJoined(f.iso(r.updated), f.uuid(r.id));
  }

  // ---- pages ----

  datatype Page = Page(items: seq<ChatRow>, next: Option<string>)

  /** `list_chats`: the matching rows after the cursor, one more than asked for to see if more follow. */
  ghost function List(f: Formats, rows: set<ChatRow>, cursor: Option<ChatRow>, limit: nat): Page
    requires KeysUnique(rows)
  {
    var found := set r <- rows | cursor.Some? ==> After(cursor.value, r);
    var fetched := Ordered(found)[..if |found| < limit + 1 then |found| else limit + 1];
    var items := fetched[..if |fetched| < limit then |fetched| else limit];
    Page(items, if |fetched| > limit && items != [] then Some(Encode(f, items[|items| - 1])) else None)
  }

  /** The pages a client gets by following `next_cursor`; page `n` asks for `limits(n)` rows. `None`
      stands for a refused cursor. */
  ghost function Walk(f: Formats, rows: set<ChatRow>, cursor: Option<ChatRow>, limits: nat -> nat,
                      n: nat): Option<seq<seq<ChatRow>>>
    requires KeysUnique(rows) && Lawful(f)
    decreases |set r <- rows | cursor.Some? ==> After(cursor.value, r)|
  {
    var page := List(f, rows, cursor, limits(n));
    if page.next.None? then Some([page.items])
    else
      match Decode(f, page.next.value)
      case None => None
      case Some(at) =>
        Advances(f, rows, cursor, limits(n));
        match Walk(f, rows, Some(at), limits, n + 1)
        case None => None
        case Some(pages) => Some([page.items] + pages)
  }

  ghost function Left(rows: set<ChatRow>, cursor: Option<ChatRow>): set<ChatRow> {
    set r <- rows | cursor.Some? ==> After(cursor.value, r)
  }

  lemma {:induction false} LeftAfter(rows: set<ChatRow>, cursor: Option<ChatRow>, at: ChatRow)
    requires at in Left(rows, cursor)
    ensures Left(rows, Some(at)) == set r <- Left(rows, cursor) | After(at, r)
  {
  }

  /** A page with a successor hands out a prefix of what is left, and its cursor leaves the rest. */
  lemma {:induction false} Advances(f: Formats, rows: set<ChatRow>, cursor: Option<ChatRow>, limit: nat)
    requires KeysUnique(rows) && Lawful(f)
    ensures var page := List(f, rows, cursor, limit);
            var left := Ordered(Left(rows, cursor));
            && (page.next.None? && limit > 0 ==> page.items == left)
            && (page.next.Some? ==>
                  && page.items != [] && page.items <= left
                  && Decode(f, page.next.value) == Some(page.items[|page.items| - 1])
                  && Ordered(Left(rows, Some(page.items[|page.items| - 1]))) == left[|page.items|..]
                  && |Left(rows, Some(page.items[|page.items| - 1]))| < |Left(rows, cursor)|)
  {
    hide Lawful, Encode, Decode, Ordered, After;
    var found := Left(rows, cursor);
    assert KeysUnique(found) && forall at :: KeysUnique(Left(rows, Some(at)));
    hide KeysUnique;
    var left := Ordered(found);
    var page := List(f, rows, cursor, limit);
    if page.next.Some? {
      var last := |page.items| - 1;
      var at := page.items[last];
      assert at == left[last];
      CursorRoundTrip(f, at);
      LeftAfter(rows, cursor, at);
      RestIsSuffix(found, last);
    }
  }

  function Concat(pages: seq<seq<ChatRow>>): seq<ChatRow> {
    if pages == [] then [] else pages[0] + Concat(pages[1..])
  }

  lemma {:induction false} WalkFrom(f: Formats, rows: set<ChatRow>, cursor: Option<ChatRow>, limits: nat -> nat, n: nat)
    requires KeysUnique(rows) && Lawful(f) && forall i: nat :: limits(i) >= 1
    ensures var pages := Walk(f, rows, cursor, limits, n);
            pages.Some? && Concat(pages.value) == Ordered(Left(rows, cursor))
    decreases |Left(rows, cursor)|
  {
    hide Lawful, List, Ordered, Decode, Encode;
    Advances(f, rows, cursor, limits(n));
    var page := List(f, rows, cursor, limits(n));
    if page.next.Some? {
      var at := page.items[|page.items| - 1];
      WalkFrom(f, rows, Some(at), limits, n + 1);
      var rest := Walk(f, rows, Some(at), limits, n + 1).value;
      assert ([page.items] + rest)[1..] == rest;
    } else {
      assert [page.items][1..] == [];
    }
  }

  /** Pinned chats come before the others, and among either those updated later, and of those with the same
      time the greater id. */
  predicate ListedBefore(a: ChatRow, b: ChatRow) {
    && (b.pinned ==> a.pinned)
    && (a.pinned == b.pinned ==> a.updated >= b.updated && (a.updated == b.updated ==> a.id > b.id))
  }

  /** A page is as long as asked for, or else the last one, and only the last one has no cursor. */
  lemma {:induction false} PagesAreFull(f: Formats, rows: set<ChatRow>, cursor: Option<ChatRow>, limit: nat)
    requires KeysUnique(rows) && limit > 0
    ensures var page := List(f, rows, cursor, limit);
            var left := set r <- rows | cursor.Some? ==> !ListedBefore(r, cursor.value) && r != cursor.value;
            && (page.next.Some? <==> |left| > limit)
            && |page.items| == (if page.next.Some? then limit else |left|)
            && forall x :: x in page.items ==> x in left
  {
    hide KeysUnique, Ordered, Encode;
    var left := set r <- rows | cursor.Some? ==> !ListedBefore(r, cursor.value) && r != cursor.value;
    if cursor.Some? {
      forall r | r in rows ensures After(cursor.value, r) <==> !ListedBefore(r, cursor.value) && r != cursor.value { }
    }
    assert left == Left(rows, cursor);
  }

  /** Page walk is complete: over a fixed table, with any page sizes of at least one, following the
      cursors ends, no cursor is refused, and the pages together list every matching chat exactly once
      in descending (pinned, updated_at, id) order. */
  lemma {:induction false} WalkIsComplete(f: Formats, table: set<ChatRow>, matches: ChatRow -> bool, limits: nat -> nat)
    requires KeysUnique(table) && Lawful(f) && forall i: nat :: limits(i) >= 1
    ensures var rows := set r <- table | matches(r);
            && KeysUnique(rows)
            && Walk(f, rows, None, limits, 0).Some?
            && var list := Concat(Walk(f, rows, None, limits, 0).value);
               && (forall x :: x in list <==> x in table && matches(x))
               && |list| == |rows|
               && (forall i, j :: 0 <= i < j < |list| ==> ListedBefore(list[i], list[j]))
  {
    hide Lawful, Walk, Concat;
    var rows := set r <- table | matches(r);
    WalkFrom(f, rows, None, limits, 0);
    assert Left(rows, None) == rows;
  }
}
