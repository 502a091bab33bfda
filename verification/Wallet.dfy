/** Idempotent ledger of one user: `WalletService.consume` and `WalletService.grant`.

The ledger is the append-only table `ledger_transactions`; `(user, idempotency_key)` is unique.
A key is either the text of a freshly generated UUID (a turn or a tool call) or a name chosen by
an external caller; the two ranges are disjoint.
*/
module Wallet {

  datatype Option<+T> = None | Some(value: T)

  datatype Key = Uuid(id: nat) | Named(name: string)
  datatype Kind = Debit | Credit
  datatype Row = Row(key: Key, kind: Kind, amount: int)
  datatype Purse = Purse(balance: int, ledger: seq<Row>)

  /** `Insufficient` and `Conflict` are raised exceptions; the others are normal returns. */
  datatype Verdict = Applied | Replayed | Insufficient | Conflict {
    predicate Ok() { Applied? || Replayed? }
  }

  datatype Op = Op(kind: Kind, key: Key, amount: int)

  function Keys(ledger: seq<Row>): set<Key> {
    if ledger == [] then {}
    else Keys(ledger[..|ledger| - 1]) + {ledger[|ledger| - 1].key}
  }

  /** The row stored under a key, if any. */
  function Find(ledger: seq<Row>, key: Key): (r: Option<Row>)
    ensures r.Some? ==> r.value in ledger && r.value.key == key
    ensures r.Some? <==> key in Keys(ledger)
  {
    if ledger == [] then None
    else if ledger[|ledger| - 1].key == key then Some(ledger[|ledger| - 1])
    else Find(ledger[..|ledger| - 1], key)
  }

  function Signed(row: Row): int {
    if row.kind.Credit? then row.amount else -row.amount
  }

  /** Sum of credits minus sum of debits. */
  function Net(ledger: seq<Row>): int {
    if ledger == [] then 0
    else Net(ledger[..|ledger| - 1]) + Signed(ledger[|ledger| - 1])
  }

  /** Insert on conflict do nothing, then either compare with the stored row or move the balance.
      After `Insufficient` the freshly inserted row is still there: only a rollback removes it. */
  function Consume(p: Purse, key: Key, amount: int): (Purse, Verdict) {
    if amount <= 0 then (p, Conflict)
    else
      match Find(p.ledger, key)
      case Some(row) =>
        (p, if row.kind == Debit && row.amount == amount then Replayed else Conflict)
      case None =>
        var inserted := p.ledger + [Row(key, Debit, amount)];
        if p.balance >= amount then (Purse(p.balance - amount, inserted), Applied)
        else (Purse(p.balance, inserted), Insufficient)
  }

  function Grant(p: Purse, key: Key, amount: int): (Purse, Verdict) {
    if amount <= 0 then (p, Conflict)
    else
      match Find(p.ledger, key)
      case Some(row) =>
        (p, if row.kind == Credit && row.amount == amount then Replayed else Conflict)
      case None =>
        (Purse(p.balance + amount, p.ledger + [Row(key, Credit, amount)]), Applied)
  }

  function Perform(p: Purse, op: Op): (Purse, Verdict) {
    if op.kind.Debit? then Consume(p, op.key, op.amount) else Grant(p, op.key, op.amount)
  }

  /** At most one row per key: the unique index on (user, idempotency key). */
  predicate UniqueKeys(ledger: seq<Row>) {
    ledger != [] ==>
      && UniqueKeys(ledger[..|ledger| - 1])
      && ledger[|ledger| - 1].key !in Keys(ledger[..|ledger| - 1])
  }

  ghost predicate Sound(p: Purse) {
    && p.balance == Net(p.ledger)
    && p.balance >= 0
    && UniqueKeys(p.ledger)
  }

  lemma {:induction false} KeysConcat(a: seq<Row>, b: seq<Row>)
    ensures Keys(a + b) == Keys(a) + Keys(b)
  {
    if b == [] {
      assert a + b == a;
    } else {
      var n := |b| - 1;
      KeysConcat(a, b[..n]);
      assert (a + b)[..|a + b| - 1] == a + b[..n];
    }
  }

  lemma {:induction false} KeysOfMember(ledger: seq<Row>, row: Row)
    requires row in ledger
    ensures row.key in Keys(ledger)
  {
    var n := |ledger| - 1;
    if row != ledger[n] { KeysOfMember(ledger[..n], row); }
  }

  /** What the unique index means: two rows with one key are one row. */
  lemma {:induction false} UniqueKeysMeaning(ledger: seq<Row>)
    ensures UniqueKeys(ledger) <==>
            forall i, j :: 0 <= i < j < |ledger| ==> ledger[i].key != ledger[j].key
  {
    if ledger != [] {
      var n := |ledger| - 1;
      UniqueKeysMeaning(ledger[..n]);
      if ledger[n].key in Keys(ledger[..n]) {
        var row := Find(ledger[..n], ledger[n].key).value;
        var i :| 0 <= i < n && ledger[..n][i] == row;
        assert ledger[i].key == ledger[n].key;
      }
      forall i | 0 <= i < n ensures ledger[i].key in Keys(ledger[..n]) {
        assert ledger[..n][i] == ledger[i];
        KeysOfMember(ledger[..n], ledger[i]);
      }
      if UniqueKeys(ledger) {
        forall i, j | 0 <= i < j < |ledger| ensures ledger[i].key != ledger[j].key {
          if j < n { assert ledger[..n][i].key != ledger[..n][j].key; }
        }
      } else if UniqueKeys(ledger[..n]) {
      } else {
        var i, j :| 0 <= i < j < n && ledger[..n][i].key == ledger[..n][j].key;
        assert ledger[i].key == ledger[j].key;
      }
    }
  }

  /** What a debit is answered, by the rows: an equal row replays it, any other row under its key and an
      amount that is not positive conflict, and a new one is applied exactly when the balance covers it. */
  lemma {:induction false} DebitVerdict(p: Purse, key: Key, amount: int)
    requires UniqueKeys(p.ledger)
    ensures var (q, v) := Consume(p, key, amount);
            var row := Row(key, Debit, amount);
            var free := forall x :: x in p.ledger ==> x.key != key;
            && (v.Replayed? <==> amount > 0 && row in p.ledger)
            && (v.Conflict? <==> amount <= 0 || (!free && row !in p.ledger))
            && (v.Insufficient? <==> amount > 0 && free && p.balance < amount)
            && (v.Applied? <==> amount > 0 && free && p.balance >= amount)
            && (v.Applied? ==> q == Purse(p.balance - amount, p.ledger + [row]))
            && (v.Replayed? || v.Conflict? ==> q == p)
  {
    RowOfKey(p.ledger, key);
  }

  /** What a credit is answered. */
  lemma {:induction false} CreditVerdict(p: Purse, key: Key, amount: int)
    requires UniqueKeys(p.ledger)
    ensures var (q, v) := Grant(p, key, amount);
            var row := Row(key, Credit, amount);
            var free := forall x :: x in p.ledger ==> x.key != key;
            && (v.Replayed? <==> amount > 0 && row in p.ledger)
            && (v.Conflict? <==> amount <= 0 || (!free && row !in p.ledger))
            && (v.Applied? <==> amount > 0 && free)
            && (v.Applied? ==> q == Purse(p.balance + amount, p.ledger + [row]))
            && (!v.Applied? ==> q == p && !v.Insufficient?)
  {
    RowOfKey(p.ledger, key);
  }

  lemma {:induction false} RowOfKey(ledger: seq<Row>, key: Key)
    requires UniqueKeys(ledger)
    ensures Find(ledger, key).None? <==> forall x :: x in ledger ==> x.key != key
    ensures forall x :: x in ledger && x.key == key ==> Find(ledger, key) == Some(x)
  {
    hide UniqueKeys;
    UniqueKeysMeaning(ledger);
    forall x | x in ledger && x.key == key ensures Find(ledger, key) == Some(x) {
      KeysOfMember(ledger, x);
      var y := Find(ledger, key).value;
      var i :| 0 <= i < |ledger| && ledger[i] == x;
      var j :| 0 <= j < |ledger| && ledger[j] == y;
      assert !(i < j) && !(j < i);
    }
  }

  lemma {:induction false} NetAppend(ledger: seq<Row>, row: Row)
    ensures Net(ledger + [row]) == Net(ledger) + Signed(row)
  {
    assert (ledger + [row])[..|ledger|] == ledger;
  }

  lemma {:induction false} NetConcat(a: seq<Row>, b: seq<Row>)
    ensures Net(a + b) == Net(a) + Net(b)
  {
    if b == [] {
      assert a + b == a;
    } else {
      var n := |b| - 1;
      NetConcat(a, b[..n]);
      assert a + b == (a + b[..n]) + [b[n]];
      NetAppend(a + b[..n], b[n]);
    }
  }

  lemma {:induction false} FindAppend(ledger: seq<Row>, row: Row, key: Key)
    ensures Find(ledger + [row], key) == if row.key == key then Some(row) else Find(ledger, key)
    ensures Keys(ledger + [row]) == Keys(ledger) + {row.key}
    ensures UniqueKeys(ledger + [row]) <==> UniqueKeys(ledger) && row.key !in Keys(ledger)
  {
    assert (ledger + [row])[..|ledger|] == ledger;
  }

  lemma {:induction false} AppendSound(p: Purse, row: Row)
    requires Sound(p) && row.key !in Keys(p.ledger) && p.balance + Signed(row) >= 0
    ensures Sound(Purse(p.balance + Signed(row), p.ledger + [row]))
  {
    NetAppend(p.ledger, row);
    FindAppend(p.ledger, row, row.key);
  }

  /** A completed operation keeps the books; a second identical one changes nothing and replays. */
  lemma {:induction false} PerformSound(p: Purse, op: Op)
    requires Sound(p)
    ensures var (q, v) := Perform(p, op);
            && (v != Insufficient ==> Sound(q))
            && (v == Insufficient ==> !Sound(q))
            && (v.Ok() ==> Perform(q, op) == (q, Replayed))
            && (v == Applied ==> q.balance == p.balance + Signed(Row(op.key, op.kind, op.amount)))
            && (!v.Ok() && v != Insufficient ==> q == p)
            && p.ledger <= q.ledger
  {
    hide Net, UniqueKeys, Find, Keys;
    var row := Row(op.key, op.kind, op.amount);
    if Find(p.ledger, op.key).None? && op.amount > 0 {
      NetAppend(p.ledger, row);
      FindAppend(p.ledger, row, op.key);
      if p.balance + Signed(row) >= 0 { AppendSound(p, row); }
    }
  }

  /** What is recorded under a key never changes again. */
  lemma {:induction false} FindStable(ledger: seq<Row>, more: seq<Row>, key: Key)
    requires key in Keys(ledger) && UniqueKeys(ledger + more)
    ensures Find(ledger + more, key) == Find(ledger, key)
  {
    if more == [] {
      assert ledger + more == ledger;
    } else {
      var n := |more| - 1;
      assert ledger + more == (ledger + more[..n]) + [more[n]];
      FindAppend(ledger + more[..n], more[n], key);
      KeysConcat(ledger, more[..n]);
      FindStable(ledger, more[..n], key);
    }
  }

  /** The service object: the wallet row and the ledger table, statement by statement. */
  class WalletService {
    var balance: int
    var ledger: seq<Row>

    function State(): Purse reads this { Purse(balance, ledger) }

    constructor ()
      ensures State() == Purse(0, []) && Sound(State())
    {
      balance, ledger := 0, [];
    }

    /** INSERT ... ON CONFLICT (user_id, idempotency_key) DO NOTHING RETURNING id. */
    method InsertOnConflictDoNothing(row: Row) returns (inserted: bool)
      modifies this`ledger
      ensures inserted == Find(old(ledger), row.key).None?
      ensures ledger == if inserted then old(ledger) + [row] else old(ledger)
    {
      var i := 0;
      while i < |ledger|
        invariant 0 <= i <= |ledger|
        invariant row.key !in Keys(ledger[..i])
      {
        if ledger[i].key == row.key {
          KeysOfMember(ledger, ledger[i]);
          return false;
        }
        assert ledger[..i + 1] == ledger[..i] + [ledger[i]];
        i := i + 1;
      }
      assert ledger[..i] == ledger;
      ledger := ledger + [row];
      return true;
    }

    method Consume(key: Key, amount: int) returns (v: Verdict)
      modifies this
      ensures (State(), v) == Perform(old(State()), Op(Debit, key, amount))
    {
      if amount <= 0 { return Conflict; }
      var inserted := InsertOnConflictDoNothing(Row(key, Debit, amount));
      if !inserted {
        var existing := Find(ledger, key);
        return if existing.value.kind == Debit && existing.value.amount == amount
               then Replayed else Conflict;
      }
      if balance < amount { return Insufficient; }
      balance := balance - amount;
      return Applied;
    }

    method Grant(key: Key, amount: int) returns (v: Verdict)
      modifies this
      ensures (State(), v) == Perform(old(State()), Op(Credit, key, amount))
    {
      if amount <= 0 { return Conflict; }
      var inserted := InsertOnConflictDoNothing(Row(key, Credit, amount));
      if !inserted {
        var existing := Find(ledger, key);
        return if existing.value.kind == Credit && existing.value.amount == amount
               then Replayed else Conflict;
      }
      balance := balance + amount;
      return Applied;
    }
  }
}
