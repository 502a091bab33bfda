/** Concurrent `consume`/`grant` transactions on one wallet, interleaved statement by statement.

Isolation is READ COMMITTED. A unique-key INSERT waits while another open transaction holds an
uncommitted row with the same key; the wallet UPDATE takes the row lock and keeps it until its
transaction ends. A guarded UPDATE whose condition already fails on the visible row matches nothing
and does not wait.
*/
module LedgerRaces {
  import opened Wallet

  /** Which statement of its current operation a transaction executes next. */
  datatype Phase = Inserting | Reading | Updating

  datatype Tx = Tx(
    ops: seq<Op>,          // the consume/grant calls of the request, in order
    done: nat,             // how many of them have returned
    phase: Phase,
    inserted: seq<Row>,    // its uncommitted ledger rows
    delta: int,            // its uncommitted balance change
    locked: bool,          // holds the wallet row lock
    failed: bool)          // an exception is propagating: only a rollback can follow
  {
    /** Uncommitted rows of the operations that have returned. */
    function Settled(): seq<Row> {
      if phase.Updating? && inserted != [] then inserted[..|inserted| - 1] else inserted
    }
  }

  type TxId = nat

  /** The committed tables, the open transactions, and every committed operation in commit order. */
  datatype System = System(purse: Purse, open: map<TxId, Tx>, history: seq<Op>)

  datatype Event =
    | Begin(t: TxId, ops: seq<Op>)
    | Statement(t: TxId)
    | Commit(t: TxId)
    | Rollback(t: TxId)

  const START := System(Purse(0, []), map[], [])

  ghost predicate InsertWaits(s: System, t: TxId, key: Key) {
    exists u :: u in s.open && u != t && key in Keys(s.open[u].inserted)
  }

  ghost predicate LockWaits(s: System, t: TxId) {
    exists u :: u in s.open && u != t && s.open[u].locked
  }

  function PendingRow(x: Tx): Row
    requires x.done < |x.ops|
  {
    Row(x.ops[x.done].key, x.ops[x.done].kind, x.ops[x.done].amount)
  }

  function Failed(x: Tx): Tx { x.(failed := true) }

  function InsertStatement(p: Purse, x: Tx): Tx
    requires x.done < |x.ops|
  {
    if Find(p.ledger + x.inserted, PendingRow(x).key).Some? then x.(phase := Reading)
    else x.(phase := Updating, inserted := x.inserted + [PendingRow(x)])
  }

  function ReadStatement(p: Purse, x: Tx): Tx
    requires x.done < |x.ops|
  {
    if Find(p.ledger + x.inserted, PendingRow(x).key) == Some(PendingRow(x))
    then x.(phase := Inserting, done := x.done + 1)
    else Failed(x)
  }

  function UpdateStatement(x: Tx): Tx
    requires x.done < |x.ops|
  {
    x.(phase := Inserting, done := x.done + 1, locked := true, delta := x.delta + Signed(PendingRow(x)))
  }

  /** One SQL statement of transaction `t`; a statement that has to wait leaves everything as is. */
  ghost function RunStatement(s: System, t: TxId, x: Tx): Tx
    requires x.done < |x.ops| && !x.failed
  {
    match x.phase
    case Inserting =>
      if PendingRow(x).amount <= 0 then Failed(x)
      else if InsertWaits(s, t, PendingRow(x).key) then x
      else InsertStatement(s.purse, x)
    case Reading => ReadStatement(s.purse, x)
    case Updating =>
      if PendingRow(x).kind.Debit? && s.purse.balance + x.delta < PendingRow(x).amount then Failed(x)
      else if LockWaits(s, t) then x
      else UpdateStatement(x)
  }

  /** An event that is not enabled changes nothing. */
  ghost function Step(s: System, e: Event): System {
    match e
    case Begin(t, ops) =>
      if t in s.open then s
      else s.(open := s.open[t := Tx(ops, 0, Inserting, [], 0, false, false)])
    case Statement(t) =>
      if t in s.open && s.open[t].done < |s.open[t].ops| && !s.open[t].failed
      then s.(open := s.open[t := RunStatement(s, t, s.open[t])])
      else s
    case Commit(t) =>
      if t in s.open && s.open[t].done == |s.open[t].ops| && !s.open[t].failed
      then var x := s.open[t];
           System(Purse(s.purse.balance + x.delta, s.purse.ledger + x.inserted),
                  s.open - {t}, s.history + x.ops)
      else s
    case Rollback(t) => s.(open := s.open - {t})
  }

  ghost function Run(s: System, events: seq<Event>): System {
    if events == [] then s
    else Step(Run(s, events[..|events| - 1]), events[|events| - 1])
  }

  /** The same operations one after another, as if each call were atomic; `None` if one raises. */
  function Serial(p: Purse, ops: seq<Op>): Option<Purse> {
    if ops == [] then Some(p)
    else
      match Serial(p, ops[..|ops| - 1])
      case None => None
      case Some(q) =>
        var (r, v) := Perform(q, ops[|ops| - 1]);
        if v.Ok() then Some(r) else None
  }

  /** What the transaction would leave if it committed right after the operations that returned. */
  function Overlay(p: Purse, x: Tx): Purse {
    Purse(p.balance + x.delta, p.ledger + x.Settled())
  }

  ghost predicate TxShape(p: Purse, x: Tx) {
    && x.done <= |x.ops|
    && (x.done == |x.ops| ==> x.phase.Inserting?)
    && (!x.phase.Inserting? ==> x.ops[x.done].amount > 0)
    && (x.phase.Updating? ==>
          && x.inserted == x.Settled() + [PendingRow(x)]
          && PendingRow(x).key !in Keys(Overlay(p, x).ledger))
    && (!x.locked ==> x.Settled() == [] && x.delta == 0)
  }

  ghost predicate TxInv(p: Purse, x: Tx) {
    && TxShape(p, x)
    && Keys(x.inserted) !! Keys(p.ledger)
    && Serial(p, x.ops[..x.done]) == Some(Overlay(p, x))
  }

  ghost predicate Apart(x: Tx, y: Tx) {
    !(x.locked && y.locked) && Keys(x.inserted) !! Keys(y.inserted)
  }

  ghost predicate Inv(s: System) {
    && Sound(s.purse)
    && Serial(START.purse, s.history) == Some(s.purse)
    && (forall t :: t in s.open ==> TxInv(s.purse, s.open[t]))
    && (forall t, u :: t in s.open && u in s.open && t != u ==> Apart(s.open[t], s.open[u]))
  }

  lemma {:induction false} SerialConcat(p: Purse, a: seq<Op>, b: seq<Op>)
    ensures Serial(p, a + b) ==
            match Serial(p, a) { case None => None case Some(q) => Serial(q, b) }
  {
    if b == [] {
      assert a + b == a;
    } else {
      var n := |b| - 1;
      SerialConcat(p, a, b[..n]);
      assert (a + b)[..|a + b| - 1] == a + b[..n];
    }
  }

  lemma {:induction false} SerialSound(p: Purse, ops: seq<Op>)
    requires Sound(p) && Serial(p, ops).Some?
    ensures Sound(Serial(p, ops).value) && p.ledger <= Serial(p, ops).value.ledger
  {
    if ops != [] {
      var n := |ops| - 1;
      SerialSound(p, ops[..n]);
      PerformSound(Serial(p, ops[..n]).value, ops[n]);
    }
  }

  lemma {:induction false} SameLedgerSamePurse(p: Purse, q: Purse)
    requires Sound(p) && Sound(q) && p.ledger == q.ledger
    ensures p == q
  {
  }

  lemma {:induction false} ReplayStays(p: Purse, p': Purse, op: Op)
    requires Sound(p) && Sound(p') && p.ledger <= p'.ledger
    requires Perform(p, op).0 == p && Perform(p, op).1.Ok()
    ensures Perform(p', op) == (p', Replayed)
  {
    hide Net, UniqueKeys, Keys, Find;
    var more := p'.ledger[|p.ledger|..];
    assert p'.ledger == p.ledger + more;
    FindStable(p.ledger, more, op.key);
  }

  /** Operations that only replay keep replaying when other transactions add rows. */
  lemma {:induction false} ReplaysStayReplays(p: Purse, p': Purse, ops: seq<Op>)
    requires Sound(p) && Sound(p') && p.ledger <= p'.ledger
    requires Serial(p, ops) == Some(p)
    ensures Serial(p', ops) == Some(p')
  {
    hide Net, UniqueKeys, Sound, Perform;
    if ops != [] {
      var n := |ops| - 1;
      SerialSound(p, ops[..n]);
      var q := Serial(p, ops[..n]).value;
      PerformSound(q, ops[n]);
      assert q.ledger == p.ledger;
      SameLedgerSamePurse(p, q);
      ReplaysStayReplays(p, p', ops[..n]);
      ReplayStays(p, p', ops[n]);
    }
  }

  lemma {:induction false} InsertKeepsShape(p: Purse, x: Tx)
    requires TxShape(p, x) && x.done < |x.ops| && x.phase.Inserting? && PendingRow(x).amount > 0
    ensures TxShape(p, InsertStatement(p, x))
    ensures Overlay(p, InsertStatement(p, x)) == Overlay(p, x)
  {
    hide Net, UniqueKeys, Keys, Find;
    var y := InsertStatement(p, x);
    if y.phase.Updating? { assert y.Settled() == x.inserted; }
  }

  lemma {:induction false} InsertKeepsKeys(p: Purse, x: Tx)
    requires x.done < |x.ops| && Keys(x.inserted) !! Keys(p.ledger)
    ensures Keys(InsertStatement(p, x).inserted) !! Keys(p.ledger)
  {
    hide Net, UniqueKeys;
    KeysConcat(p.ledger, x.inserted);
    KeysConcat(x.inserted, [PendingRow(x)]);
  }

  lemma {:induction false} SerialSnoc(p: Purse, ops: seq<Op>, n: nat, q: Purse, r: Purse, v: Verdict)
    requires n < |ops| && v.Ok()
    requires Serial(p, ops[..n]) == Some(q) && Perform(q, ops[n]) == (r, v)
    ensures Serial(p, ops[..n + 1]) == Some(r)
  {
    hide Net, UniqueKeys, Keys, Find;
    assert ops[..n + 1][..n] == ops[..n];
  }

  lemma {:induction false} UpdatePerforms(p: Purse, x: Tx)
    requires TxShape(p, x) && x.done < |x.ops| && x.phase.Updating?
    requires PendingRow(x).kind.Debit? ==> p.balance + x.delta >= PendingRow(x).amount
    ensures Perform(Overlay(p, x), x.ops[x.done]) == (Overlay(p, UpdateStatement(x)), Applied)
  {
    hide Net, UniqueKeys, Keys, Find;
    assert Overlay(p, x).ledger + [PendingRow(x)] == p.ledger + x.inserted;
  }

  lemma {:induction false} ReadPerforms(p: Purse, x: Tx)
    requires TxShape(p, x) && x.done < |x.ops| && x.phase.Reading? && !ReadStatement(p, x).failed
    ensures Perform(Overlay(p, x), x.ops[x.done]) == (Overlay(p, x), Replayed)
    ensures Overlay(p, ReadStatement(p, x)) == Overlay(p, x)
  {
    hide Net, UniqueKeys, Keys, Find;
  }

  lemma {:induction false} InsertKeepsTx(p: Purse, x: Tx)
    requires TxInv(p, x) && x.done < |x.ops| && x.phase.Inserting? && PendingRow(x).amount > 0
    ensures TxInv(p, InsertStatement(p, x))
  {
    hide Net, UniqueKeys, Keys, Find, Serial;
    InsertKeepsShape(p, x);
    InsertKeepsKeys(p, x);
  }

  lemma {:induction false} ReadKeepsTx(p: Purse, x: Tx)
    requires TxInv(p, x) && x.done < |x.ops| && x.phase.Reading? && !x.failed
    ensures TxInv(p, ReadStatement(p, x))
  {
    hide Serial, Net, UniqueKeys, Keys, Find;
    var q := Overlay(p, x);
    if !ReadStatement(p, x).failed {
      ReadPerforms(p, x);
      SerialSnoc(p, x.ops, x.done, q, q, Replayed);
    }
  }

  lemma {:induction false} UpdateKeepsTx(p: Purse, x: Tx)
    requires TxInv(p, x) && x.done < |x.ops| && x.phase.Updating?
    requires PendingRow(x).kind.Debit? ==> p.balance + x.delta >= PendingRow(x).amount
    ensures TxInv(p, UpdateStatement(x))
  {
    hide Net, UniqueKeys, Keys, Find, Serial;
    UpdatePerforms(p, x);
    SerialSnoc(p, x.ops, x.done, Overlay(p, x), Overlay(p, UpdateStatement(x)), Applied);
  }

  lemma {:induction false} StatementKeepsTx(s: System, t: TxId, x: Tx)
    requires TxInv(s.purse, x) && x.done < |x.ops| && !x.failed
    ensures TxInv(s.purse, RunStatement(s, t, x))
  {
    hide Serial, Net, UniqueKeys, Keys, Find;
    match x.phase
    case Inserting =>
      if PendingRow(x).amount > 0 { InsertKeepsTx(s.purse, x); }
    case Reading => ReadKeepsTx(s.purse, x);
    case Updating =>
      if PendingRow(x).kind.Debit? && s.purse.balance + x.delta < PendingRow(x).amount {
      } else { UpdateKeepsTx(s.purse, x); }
  }

  ghost predicate Committable(s: System, t: TxId) {
    t in s.open && s.open[t].done == |s.open[t].ops| && !s.open[t].failed
  }

  lemma {:induction false} RowsOfOthersKeepShape(p: Purse, p': Purse, x: Tx, y: Tx)
    requires p' == Purse(p.balance + x.delta, p.ledger + x.inserted)
    requires TxShape(p, y) && !y.locked && Keys(y.inserted) !! Keys(p.ledger)
    requires Keys(x.inserted) !! Keys(y.inserted)
    ensures TxShape(p', y) && Keys(y.inserted) !! Keys(p'.ledger)
  {
    hide Net, UniqueKeys, Keys, Find;
    KeysConcat(p.ledger, x.inserted);
    assert p'.ledger + y.Settled() == p'.ledger;
    if y.phase.Updating? { KeysOfMember(y.inserted, PendingRow(y)); }
  }

  lemma {:induction false} RowsOfOthersArrive(p: Purse, p': Purse, x: Tx, y: Tx)
    requires Sound(p) && Sound(p') && p' == Purse(p.balance + x.delta, p.ledger + x.inserted)
    requires TxInv(p, y) && !y.locked && Keys(x.inserted) !! Keys(y.inserted)
    ensures TxInv(p', y)
  {
    hide Net, UniqueKeys, Keys, Find, Sound, Serial;
    RowsOfOthersKeepShape(p, p', x, y);
    assert Overlay(p, y).ledger == p.ledger && Overlay(p', y).ledger == p'.ledger;
    ReplaysStayReplays(p, p', y.ops[..y.done]);
  }

  lemma {:induction false} CommitKeepsOthers(s: System, u: TxId, t: TxId)
    requires Inv(s) && Committable(s, u) && t in s.open && t != u
    ensures TxInv(Step(s, Commit(u)).purse, s.open[t])
  {
    hide Net, UniqueKeys, Find, Serial;
    var x := s.open[u];
    var p, p' := s.purse, Step(s, Commit(u)).purse;
    assert x.ops[..x.done] == x.ops;
    assert Apart(x, s.open[t]) && TxInv(p, x) && x.Settled() == x.inserted;
    if x.locked {
      SerialSound(p, x.ops);
      RowsOfOthersArrive(p, p', x, s.open[t]);
    } else {
      assert p' == p;
    }
  }

  lemma {:induction false} StatementKeepsApart(s: System, t: TxId, u: TxId, x: Tx)
    requires t in s.open && u in s.open && u != t && x == s.open[t] && Apart(x, s.open[u])
    requires x.done < |x.ops| && !x.failed
    ensures Apart(RunStatement(s, t, x), s.open[u]) && Apart(s.open[u], RunStatement(s, t, x))
  {
    hide Net, UniqueKeys, Find;
    KeysConcat(x.inserted, [PendingRow(x)]);
  }

  lemma {:induction false} StatementKeeps(s: System, t: TxId)
    requires Inv(s)
    ensures Inv(Step(s, Statement(t)))
  {
    hide Serial, Keys, Net, UniqueKeys, RunStatement, TxInv, Apart, Sound;
    var s' := Step(s, Statement(t));
    if t in s.open && s.open[t].done < |s.open[t].ops| && !s.open[t].failed {
      StatementKeepsTx(s, t, s.open[t]);
      forall u | u in s.open && u != t ensures Apart(s'.open[t], s'.open[u]) && Apart(s'.open[u], s'.open[t]) {
        assert Apart(s.open[t], s.open[u]);
        StatementKeepsApart(s, t, u, s.open[t]);
      }
    }
  }

  lemma {:induction false} CommitKeeps(s: System, t: TxId)
    requires Inv(s)
    ensures Inv(Step(s, Commit(t)))
  {
    hide Serial, Keys, Net, UniqueKeys, Apart;
    if Committable(s, t) {
      var s', x := Step(s, Commit(t)), s.open[t];
      assert x.ops[..x.done] == x.ops;
      assert TxInv(s.purse, x) && x.Settled() == x.inserted;
      SerialConcat(START.purse, s.history, x.ops);
      SerialSound(s.purse, x.ops);
      forall u | u in s'.open ensures TxInv(s'.purse, s'.open[u]) { CommitKeepsOthers(s, t, u); }
    }
  }

  lemma {:induction false} FreshTx(p: Purse, ops: seq<Op>)
    ensures TxInv(p, Tx(ops, 0, Inserting, [], 0, false, false))
  {
    assert p.ledger + [] == p.ledger;
  }

  lemma {:induction false} BeginKeeps(s: System, t: TxId, ops: seq<Op>)
    requires Inv(s)
    ensures Inv(Step(s, Begin(t, ops)))
  {
    hide Net, UniqueKeys, Sound, TxInv, Serial;
    FreshTx(s.purse, ops);
  }

  lemma {:induction false} StepKeeps(s: System, e: Event)
    requires Inv(s)
    ensures Inv(Step(s, e))
  {
    match e
    case Begin(t, ops) => BeginKeeps(s, t, ops);
    case Statement(t) => StatementKeeps(s, t);
    case Commit(t) => CommitKeeps(s, t);
    case Rollback(t) =>
  }

  /** Serializability: whatever the interleaving, the committed wallet is the one obtained by making
      the committed calls atomically, in commit order, with none of them raising; in particular the
      balance is credits minus debits, never negative, and no key is stored twice. */
  lemma {:induction false} CommittedStateIsSerial(events: seq<Event>)
    ensures var s := Run(START, events);
            && Inv(s)
            && Serial(Purse(0, []), s.history) == Some(s.purse)
            && Sound(s.purse)
  {
    if events != [] {
      CommittedStateIsSerial(events[..|events| - 1]);
      StepKeeps(Run(START, events[..|events| - 1]), events[|events| - 1]);
    }
  }

  /** An operation that raised keeps its transaction from ever committing: it stays open, failed and
      unchanged through every event until its own rollback. */
  lemma {:induction false} FailedNeverCommits(s: System, t: TxId, events: seq<Event>)
    requires t in s.open && s.open[t].failed
    requires forall i :: 0 <= i < |events| ==> events[i] != Rollback(t)
    ensures var s' := Run(s, events);
            t in s'.open && s'.open[t] == s.open[t]
  {
    if events != [] {
      var n := |events| - 1;
      FailedNeverCommits(s, t, events[..n]);
      assert events[n] != Rollback(t);
    }
  }
}
