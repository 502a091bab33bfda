/** What a replay repeats and who has paid for it. The response of a replay has the status of an answer,
whichever reply of the turn it repeats: it is paid exactly when the turn has an answer on record. */
module Replays {
  import opened Wallet
  import opened Records
  import opened Repository
  import opened Engine
  import opened Money
  import opened History
  import opened Growth
  import opened TurnSafety
  import opened Conversation
  import opened Runs
  import opened Responses
  import opened Billing
  import opened ToolResults
  import opened Replies
  import opened StoredAnswers
  import Policy

  // ---- what is on record has an answer, as long as it can be replayed ----

  /** A turn that is on record and still has a call has an answer in the same session. */
  ghost predicate Remembered(c: Chat, finals: seq<Final>) {
    forall id :: id in c.calls && OnRecord(finals, c.calls[id].turn) ==> HasAnswer(c, c.calls[id].turn)
  }

  /** No turn has steps in two sessions. */
  ghost predicate TurnsApart(db: Database) {
    forall a, b, t :: a in db.sessions && b in db.sessions && a != b && t in Turns(db.sessions[a].chat.steps) ==>
      t !in Turns(db.sessions[b].chat.steps)
  }

  ghost predicate DbRemembers(db: Database) {
    TurnsApart(db) && forall id :: id in db.sessions ==> Remembered(db.sessions[id].chat, db.account.finals)
  }

  lemma {:induction false} AnswerStays(c: Chat, d: Chat, turn: Id)
    requires c.steps <= d.steps && HasAnswer(c, turn)
    ensures HasAnswer(d, turn)
  {
    hide IsAnswer;
    var i :| 0 <= i < |c.steps| && IsAnswer(c.steps[i]) && c.steps[i].turn == turn;
    assert d.steps[i] == c.steps[i];
  }

  /** An edit that removes the answer of a turn removes its calls. */
  lemma {:induction false} CutRemembers(c: Chat, m: nat, finals: seq<Final>)
    requires Remembered(c, finals) && m <= |c.steps|
    ensures Remembered(CutAt(c, m), finals)
  {
    hide IsAnswer, OnRecord;
    var d := CutAt(c, m);
    forall id | id in d.calls && OnRecord(finals, d.calls[id].turn) ensures HasAnswer(d, d.calls[id].turn) {
      var turn := c.calls[id].turn;
      var i :| 0 <= i < |c.steps| && IsAnswer(c.steps[i]) && c.steps[i].turn == turn;
      assert i < m by {
        assert forall k :: m <= k < |c.steps| ==> c.steps[k] == c.steps[m..][k - m] && c.steps[k] in c.steps[m..];
      }
      assert d.steps[i] == c.steps[i];
    }
  }

  /** Work on one turn: calls and steps of that turn were added, and at most a final step of it. */
  lemma {:induction false} GrownRemembers(c: Chat, d: Chat, turn: Id, finals: seq<Final>, later: seq<Final>)
    requires Remembered(c, finals) && c.steps <= d.steps
    requires forall id :: id in d.calls ==>
               d.calls[id].turn == turn || (id in c.calls && d.calls[id].turn == c.calls[id].turn)
    requires forall f :: f in later ==> f in finals || f.turn == turn
    requires OnRecord(later, turn) ==> HasAnswer(d, turn)
    ensures Remembered(d, later)
  {
    hide HasAnswer;
    forall id | id in d.calls && OnRecord(later, d.calls[id].turn) ensures HasAnswer(d, d.calls[id].turn) {
      var t := d.calls[id].turn;
      if t != turn { AnswerStays(c, d, t); }
    }
  }

  /** The rows a generation starts from, and its turn: new, or one of the session's that has a call. */
  lemma {:induction false} BaseRemembers(cost: int, w: World, db: Database, r: Request)
    requires DbInv(cost, db) && DbRemembers(db) && (r.Run? || r.ToolResult?) && BaseOf(w, db, r).Some?
    ensures var b := BaseOf(w, db, r).value;
            && (r.ToolResult? ==> r.session in db.sessions)
            && Remembered(b.store.chat, db.account.finals)
            && (OnRecord(db.account.finals, b.turn) ==> HasAnswer(b.store.chat, b.turn))
            && TurnsFrom(Place(db, r).1.chat, b.turn, b.store.chat)
            && (b.turn >= db.next || b.turn in Turns(Place(db, r).1.chat.steps))
  {
    hide HasAnswer, Remembered, OnRecord, AccountInv, ChatInv, PendingClient, NextStepAfter, ApplyResults, Resolve,
        CutAt;
    var b := BaseOf(w, db, r).value;
    var finals := db.account.finals;
    if r.ToolResult? {
      var c := db.sessions[r.session].chat;
      var d := b.store.chat;
      ResolvedTurn(c, r.items);
      SessionInv(cost, db, r.session);
      AppliedRemembers(c, r.items, b.turn, db.account.initiated, db.next, finals);
    } else {
      NewTurnOffRecord(cost, db, b.turn);
      var c := Place(db, r).1.chat;
      NoCallsRemembered(finals);
      if !Target(db, r).2 && r.request.edit.Some? {
        var m := FirstIndex(c.steps, 0, IsUser(r.request.edit.value)).value;
        CutRemembers(c, m, finals);
        SpokenRemembers(CutAt(c, m), b.turn, User(r.request.content, r.request.actionPrompt), finals);
        CutTurns(c, m);
      } else {
        SpokenRemembers(c, b.turn, User(r.request.content, r.request.actionPrompt), finals);
      }
    }
  }

  /** Every step of `d` is of `turn` or of a turn of `c`. */
  ghost predicate TurnsFrom(c: Chat, turn: Id, d: Chat) {
    forall i :: 0 <= i < |d.steps| ==> d.steps[i].turn == turn || d.steps[i].turn in Turns(c.steps)
  }

  lemma {:induction false} NoCallsRemembered(finals: seq<Final>)
    ensures Remembered(Chat([], map[]), finals)
  {
  }

  lemma {:induction false} CutTurns(c: Chat, m: nat)
    requires m <= |c.steps|
    ensures forall i :: 0 <= i < m ==> CutAt(c, m).steps[i].turn in Turns(c.steps)
    ensures |CutAt(c, m).steps| == m
  {
    forall i | 0 <= i < m ensures CutAt(c, m).steps[i].turn in Turns(c.steps) {
      assert c.steps[i].turn in Turns(c.steps);
    }
  }

  lemma {:induction false} ResolvedTurn(c: Chat, items: seq<ResultItem>)
    requires Resolve(c, items, None).0.Some?
    ensures BatchFor(c, Resolve(c, items, None).0.value, items)
  {
  }

  lemma {:induction false} NewTurnOffRecord(cost: int, db: Database, turn: Id)
    requires DbInv(cost, db) && turn >= db.next
    ensures !OnRecord(db.account.finals, turn)
  {
    hide Sound, KeysInv, Conserved, TrialOnce, ChatInv;
  }

  lemma {:induction false} SpokenRemembers(c: Chat, turn: Id, body: Body, finals: seq<Final>)
    requires Remembered(c, finals) && !OnRecord(finals, turn)
    ensures Remembered(AddStep(c, turn, body), finals)
  {
    hide HasAnswer, OnRecord;
    GrownRemembers(c, AddStep(c, turn, body), turn, finals, finals);
  }

  lemma {:induction false} AppliedRemembers(c: Chat, items: seq<ResultItem>, turn: Id, initiated: map<Id, Id>, next: Id,
                                            finals: seq<Final>)
    requires ChatInv(c, initiated, next) && BatchFor(c, turn, items) && Remembered(c, finals)
    ensures var d := ApplyResults(c, items);
            && Remembered(d, finals) && TurnsFrom(c, turn, d)
            && turn in Turns(c.steps) && (OnRecord(finals, turn) ==> HasAnswer(d, turn))
  {
    hide HasAnswer, OnRecord, ApplyResults, FirstFor, StepInv;
    var d := ApplyResults(c, items);
    assert items[0].call in c.calls && c.calls[items[0].call].turn == turn by { assert items[0] in items; }
    AppliedTurns(c, items, turn);
    if OnRecord(finals, turn) { AnswerStays(c, d, turn); }
    forall id | id in d.calls ensures id in c.calls && d.calls[id].turn == c.calls[id].turn {
      ApplySettles(c, items, id);
    }
    GrownRemembers(c, d, turn, finals, finals);
  }

  lemma {:induction false} AppliedTurns(c: Chat, items: seq<ResultItem>, turn: Id)
    requires forall item :: item in items ==> item.call in c.calls && c.calls[item.call].turn == turn
    ensures c.steps <= ApplyResults(c, items).steps && TurnsFrom(c, turn, ApplyResults(c, items))
    decreases |items|
  {
    if items != [] {
      assert items[0] in items;
      var d := Answer(c, items[0].call, items[0].result, items[0].error);
      assert forall id :: id in c.calls ==> id in d.calls && d.calls[id].turn == c.calls[id].turn;
      AppliedTurns(d, items[1..], turn);
      assert TurnsFrom(c, turn, d);
    }
  }

  // ---- over runs ----

  /** What a request may do to the record: a final step of its own turn, if it answered. */
  lemma {:induction false} RecordGrows(cost: int, w: World, db: Database, r: Request)
    requires DbInv(cost, db) && w.cost == cost && (r.Run? || r.TemporaryRun? || r.ToolResult?)
    ensures var after := Exec(w, db, r).0;
            forall f :: f in after.account.finals && f !in db.account.finals ==>
              BaseOf(w, db, r).Some? && f.turn == BaseOf(w, db, r).value.turn
                  && Exec(w, db, r).1.out.AssistantMessageOut?
  {
    hide Exec, DbInv, BaseOf, Unpaid;
    var (after, trace) := Exec(w, db, r);
    if trace.log == [] {
      NothingCommitted(w, db, r);
    } else {
      LastCommitInstalled(w, db, r);
      if BaseOf(w, db, r).None? {
        Uncontinued(w, db, r);
      } else {
        BaseHasMode(w, db, r);
        GenerationSettles(w, db, r);
        assert !trace.out.AssistantMessageOut? ==> Unpaid(db.account, trace.log[|trace.log| - 1].account);
        UnpaidMeans(db.account, trace.log[|trace.log| - 1].account);
      }
    }
  }

  lemma {:induction false} UnpaidMeans(a: Account, b: Account)
    ensures Unpaid(a, b) ==> b.finals == a.finals
  {
  }

  lemma {:induction false} BaseHasMode(w: World, db: Database, r: Request)
    requires BaseOf(w, db, r).Some?
    ensures ModeOf(db, r).Some?
  {
  }

  lemma {:induction false} NothingCommitted(w: World, db: Database, r: Request)
    requires (r.Run? || r.TemporaryRun? || r.ToolResult?) && Exec(w, db, r).1.log == []
    ensures Exec(w, db, r).0.account == db.account && Exec(w, db, r).0.sessions == db.sessions
  {
    hide RunTurn, ToolResultTurn, Finish;
  }

  /** Without a generation: at most the results are stored. */
  lemma {:induction false} Uncontinued(w: World, db: Database, r: Request)
    requires (r.Run? || r.TemporaryRun? || r.ToolResult?) && BaseOf(w, db, r).None?
    ensures var log := Exec(w, db, r).1.log;
            log != [] ==>
              && r.ToolResult? && r.session in db.sessions
              && Resolve(db.sessions[r.session].chat, r.items, None).0.Some?
              && log[|log| - 1] == Store(ApplyResults(db.sessions[r.session].chat, r.items), db.account)
  {
    hide Continue, Truncate, PendingClient, NextStepAfter, Resolve, ApplyResults;
  }

  /** The session a request wrote to, and the turn it worked on: results only, or a generation. */
  lemma {:induction false} WrittenRemembers(cost: int, w: World, db: Database, r: Request) returns (turn: Id)
    requires DbInv(cost, db) && w.cost == cost && WorldOk(w) && DbRemembers(db) && (r.Run? || r.ToolResult?)
    requires Exec(w, db, r).1.log != []
    ensures var (after, trace) := Exec(w, db, r);
            var d := trace.log[|trace.log| - 1].chat;
            && (r.ToolResult? ==> r.session in db.sessions)
            && Remembered(d, after.account.finals) && Writes(db, r, turn, d, after.account.finals)
  {
    hide Exec, DbInv, BaseOf, Remembered, DbRemembers, Resolve, Writes, WorldOk, ApplyResults;
    var trace := Exec(w, db, r).1;
    if BaseOf(w, db, r).None? {
      Uncontinued(w, db, r);
      turn := Resolve(db.sessions[r.session].chat, r.items, None).0.value;
      ResultsRemember(cost, w, db, r, turn);
    } else {
      turn := BaseOf(w, db, r).value.turn;
      GenerationRemembers(cost, w, db, r);
    }
  }

  lemma {:induction false} ResultsRemember(cost: int, w: World, db: Database, r: Request, turn: Id)
    requires DbInv(cost, db) && w.cost == cost && DbRemembers(db) && r.ToolResult? && r.session in db.sessions
    requires BaseOf(w, db, r).None? && Resolve(db.sessions[r.session].chat, r.items, None).0 == Some(turn)
    requires Exec(w, db, r).1.log != []
    ensures var d := ApplyResults(db.sessions[r.session].chat, r.items);
            var finals := Exec(w, db, r).0.account.finals;
            Remembered(d, finals) && Writes(db, r, turn, d, finals)
  {
    hide Exec, DbInv, BaseOf, HasAnswer, Remembered, OnRecord, TurnsFrom, ApplyResults, Resolve, DbRemembers;
    var c := db.sessions[r.session].chat;
    Uncontinued(w, db, r);
    LastCommitInstalled(w, db, r);
    ResolvedTurn(c, r.items);
    SessionInv(cost, db, r.session);
    SessionRemembers(db, r.session);
    AppliedRemembers(c, r.items, turn, db.account.initiated, db.next, db.account.finals);
  }

  lemma {:induction false} GenerationRemembers(cost: int, w: World, db: Database, r: Request)
    requires DbInv(cost, db) && w.cost == cost && WorldOk(w) && DbRemembers(db) && (r.Run? || r.ToolResult?)
    requires BaseOf(w, db, r).Some? && Exec(w, db, r).1.log != []
    ensures var (after, trace) := Exec(w, db, r);
            var d := trace.log[|trace.log| - 1].chat;
            && (r.ToolResult? ==> r.session in db.sessions)
            && Remembered(d, after.account.finals)
            && Writes(db, r, BaseOf(w, db, r).value.turn, d, after.account.finals)
  {
    hide Exec, DbInv, BaseOf, HasAnswer, Remembered, OnRecord, TurnsFrom, Reports, DbRemembers, WorldOk;
    var (after, trace) := Exec(w, db, r);
    var b := BaseOf(w, db, r).value;
    var d := trace.log[|trace.log| - 1].chat;
    LastCommitInstalled(w, db, r);
    RecordGrows(cost, w, db, r);
    BaseRemembers(cost, w, db, r);
    ResponseAgrees(cost, w, db, r);
    ReportedGrew(w, b, after.next, trace);
    if trace.out.AssistantMessageOut? {
      AnswerStored(cost, w, db, r);
    } else if OnRecord(after.account.finals, b.turn) {
      SameRecord(db.account.finals, after.account.finals, b.turn);
      AnswerStays(b.store.chat, d, b.turn);
    }
    GrownRemembers(b.store.chat, d, b.turn, db.account.finals, after.account.finals);
    GrownTurns(Place(db, r).1.chat, b.turn, b.store.chat, d);
  }

  /** What answers has stored its answer. */
  lemma {:induction false} AnswerStored(cost: int, w: World, db: Database, r: Request)
    requires DbInv(cost, db) && w.cost == cost && WorldOk(w) && (r.Run? || r.ToolResult?) && BaseOf(w, db, r).Some?
    requires Exec(w, db, r).1.out.AssistantMessageOut?
    ensures var trace := Exec(w, db, r).1;
            trace.log != [] && HasAnswer(trace.log[|trace.log| - 1].chat, BaseOf(w, db, r).value.turn)
  {
    hide Exec, DbInv, BaseOf, ClosedBy, HasAnswer, WorldOk;
    RequestReplies(cost, w, db, r);
    var (b, trace) := (BaseOf(w, db, r).value, Exec(w, db, r).1);
    var d := trace.log[|trace.log| - 1].chat;
    var m :| |b.store.chat.steps| <= m && ClosedBy(w, b.turn, d, m, trace.out);
    AnsweredAt(w, b.turn, d, m, trace.out);
  }

  lemma {:induction false} SessionRemembers(db: Database, id: Id)
    requires DbRemembers(db) && id in db.sessions
    ensures Remembered(db.sessions[id].chat, db.account.finals)
  {
  }

  /** All that was written is of one turn, a new one or one of the session. */
  ghost predicate Writes(db: Database, r: Request, turn: Id, d: Chat, finals: seq<Final>)
    requires r.Run? || (r.ToolResult? && r.session in db.sessions)
  {
    && TurnsFrom(Place(db, r).1.chat, turn, d)
    && (turn >= db.next || turn in Turns(Place(db, r).1.chat.steps))
    && forall f :: f in finals ==> f in db.account.finals || f.turn == turn
  }

  lemma {:induction false} ReportedGrew(w: World, b: Base, next: Id, trace: Trace)
    requires Reports(w, b, next, trace) && trace.log != []
    ensures ChatGrew(b.store.chat, trace.log[|trace.log| - 1].chat, b.next, b.turn)
  {
    hide AccountGrew, Agrees, SentOk, PendingClient;
    assert StoreGrew(b, trace.log[|trace.log| - 1], next);
  }

  lemma {:induction false} AnsweredAt(w: World, turn: Id, d: Chat, m: int, out: Outcome)
    requires WorldOk(w) && out.AssistantMessageOut? && ClosedBy(w, turn, d, m, out)
    ensures HasAnswer(d, turn)
  {
    hide IsAnswer, WorldOk;
  }

  lemma {:induction false} SameRecord(finals: seq<Final>, later: seq<Final>, turn: Id)
    requires OnRecord(later, turn) && forall f :: f in later ==> f in finals
    ensures OnRecord(finals, turn)
  {
  }

  lemma {:induction false} GrownTurns(c: Chat, turn: Id, b: Chat, d: Chat)
    requires TurnsFrom(c, turn, b) && b.steps <= d.steps
    requires forall i :: |b.steps| <= i < |d.steps| ==> d.steps[i].turn == turn
    ensures TurnsFrom(c, turn, d)
  {
    forall i | 0 <= i < |d.steps| ensures d.steps[i].turn == turn || d.steps[i].turn in Turns(c.steps) {
      if i < |b.steps| { assert d.steps[i] == b.steps[i]; }
    }
  }

  lemma {:induction false} ExecRemembers(cost: int, w: World, db: Database, r: Request)
    requires DbInv(cost, db) && w.cost == cost && WorldOk(w) && DbRemembers(db)
    ensures DbRemembers(Exec(w, db, r).0)
  {
    hide DbInv, WorldOk, DbRemembers, RunTurn, ToolResultTurn, Finish, Consume, Grant;
    var (after, trace) := Exec(w, db, r);
    match r
    case Run(_, _, _, _, _) => WrittenDb(cost, w, db, r);
    case ToolResult(_, _) => WrittenDb(cost, w, db, r);
    case TemporaryRun(_, _, _) =>
      RecordGrows(cost, w, db, r);
      OtherTurn(cost, db, after, db.next + |r.transcript|);
    case _ => SameRemembers(db, after);
  }

  lemma {:induction false} SameRemembers(db: Database, after: Database)
    requires DbRemembers(db) && after.sessions == db.sessions && after.account.finals == db.account.finals
    ensures DbRemembers(after)
  {
  }

  /** A final step of a turn that no session has. */
  lemma {:induction false} OtherTurn(cost: int, db: Database, after: Database, turn: Id)
    requires DbInv(cost, db) && DbRemembers(db) && after.sessions == db.sessions && turn >= db.next
    requires forall f :: f in after.account.finals ==> f in db.account.finals || f.turn == turn
    ensures DbRemembers(after)
  {
    hide AccountInv, ChatInv, Remembered, TurnsApart;
    assert TurnsApart(after) by { SameApart(db, after); }
    forall id | id in after.sessions ensures Remembered(after.sessions[id].chat, after.account.finals) {
      OtherRemembers(cost, db, id, turn, after.account.finals);
    }
  }

  lemma {:induction false} SameApart(db: Database, after: Database)
    requires TurnsApart(db) && after.sessions == db.sessions
    ensures TurnsApart(after)
  {
  }

  /** A session without steps of the turn does not notice its final step. */
  lemma {:induction false} OtherRemembers(cost: int, db: Database, id: Id, turn: Id, later: seq<Final>)
    requires DbInv(cost, db) && id in db.sessions && Remembered(db.sessions[id].chat, db.account.finals)
    requires turn >= db.next || turn !in Turns(db.sessions[id].chat.steps)
    requires forall f :: f in later ==> f in db.account.finals || f.turn == turn
    ensures Remembered(db.sessions[id].chat, later)
  {
    hide AccountInv, HasAnswer, CallInv, DbInv;
    var c := db.sessions[id].chat;
    SessionInv(cost, db, id);
    forall k | k in c.calls && OnRecord(later, c.calls[k].turn) ensures HasAnswer(c, c.calls[k].turn) {
      assert c.calls[k].turn in Turns(c.steps);
      var i :| 0 <= i < |c.steps| && c.steps[i].turn == c.calls[k].turn;
      assert StepInv(c, db.account.initiated, db.next, c.steps[i]);
      assert OnRecord(db.account.finals, c.calls[k].turn);
    }
  }

  lemma {:induction false} WrittenDb(cost: int, w: World, db: Database, r: Request)
    requires DbInv(cost, db) && w.cost == cost && WorldOk(w) && DbRemembers(db) && (r.Run? || r.ToolResult?)
    ensures DbRemembers(Exec(w, db, r).0)
  {
    hide DbInv, WorldOk, Remembered, RunTurn, ToolResultTurn, Finish, TurnsApart;
    var (after, trace) := Exec(w, db, r);
    if trace.log == [] {
      NothingCommitted(w, db, r);
      SameRemembers(db, after);
    } else {
      var turn := WrittenRemembers(cost, w, db, r);
      var id := Place(db, r).0;
      var d := trace.log[|trace.log| - 1].chat;
      LastCommitInstalled(w, db, r);
      assert after.sessions == db.sessions[id := Place(db, r).1.(chat := d)];
      WrittenApart(cost, db, r, turn, d, after);
      forall k | k in after.sessions ensures Remembered(after.sessions[k].chat, after.account.finals) {
        if k != id {
          ElsewhereNoTurn(cost, db, r, turn, k);
          OtherRemembers(cost, db, k, turn, after.account.finals);
        }
      }
    }
  }

  lemma {:induction false} ElsewhereNoTurn(cost: int, db: Database, r: Request, turn: Id, k: Id)
    requires DbInv(cost, db) && TurnsApart(db) && (r.Run? || (r.ToolResult? && r.session in db.sessions))
    requires k in db.sessions && k != Place(db, r).0
    requires turn >= db.next || turn in Turns(Place(db, r).1.chat.steps)
    ensures turn !in Turns(db.sessions[k].chat.steps)
  {
    hide AccountInv, CallInv, CallsHaveSteps;
    var c := db.sessions[k].chat;
    assert forall i :: 0 <= i < |c.steps| ==> StepInv(c, db.account.initiated, db.next, c.steps[i]);
  }

  lemma {:induction false} WrittenApart(cost: int, db: Database, r: Request, turn: Id, d: Chat, after: Database)
    requires DbInv(cost, db) && TurnsApart(db) && (r.Run? || (r.ToolResult? && r.session in db.sessions))
    requires Writes(db, r, turn, d, after.account.finals)
    requires after.sessions == db.sessions[Place(db, r).0 := Place(db, r).1.(chat := d)]
    ensures TurnsApart(after)
  {
    hide DbInv;
    var id := Place(db, r).0;
    forall k, t | k in db.sessions && k != id && t in Turns(d.steps) ensures t !in Turns(db.sessions[k].chat.steps) {
      ElsewhereNoTurn(cost, db, r, t, k);
    }
  }

  lemma {:induction false} PlayRemembers(cost: int, db: Database, events: seq<Event>)
    requires Fresh(db) && SameCost(cost, events) && WorldsOk(events)
    ensures DbRemembers(Play(db, events))
  {
    hide Exec, DbInv, Fresh, DbRemembers, WorldOk;
    if events == [] {
      NoSessionRemembers(db);
    } else {
      var n := |events| - 1;
      PlayRemembers(cost, db, events[..n]);
      FreshHolds(cost, db);
      PlayKeeps(cost, db, events[..n]);
      ExecRemembers(cost, events[n].world, Play(db, events[..n]), events[n].request);
    }
  }

  ghost predicate WorldsOk(events: seq<Event>) { forall e :: e in events ==> WorldOk(e.world) }

  lemma {:induction false} NoSessionRemembers(db: Database)
    requires Fresh(db)
    ensures DbRemembers(db)
  {
  }

  /** After any run of a new user: a credits-mode turn that still has a call, and so can be replayed, has
      been paid for exactly when its session holds an answer of it. */
  lemma {:induction false} PaidExactly(cost: int, db: Database, events: seq<Event>, session: Id, call: Id)
    requires Fresh(db) && SameCost(cost, events) && WorldsOk(events)
    requires var now := Play(db, events);
             session in now.sessions && now.sessions[session].mode.Credits? && call in now.sessions[session].chat.calls
    ensures var now := Play(db, events);
            var c := now.sessions[session].chat;
            PaidFor(now.account, c.calls[call].turn) <==> HasAnswer(c, c.calls[call].turn)
  {
    hide Play, Fresh, IsAnswer, WorldsOk, TurnsApart;
    var now := Play(db, events);
    var c := now.sessions[session].chat;
    var turn := c.calls[call].turn;
    PlayRemembers(cost, db, events);
    assert PaidFor(now.account, turn) ==> OnRecord(now.account.finals, turn);
    hide PaidFor, OnRecord;
    if HasAnswer(c, turn) {
      var i :| 0 <= i < |c.steps| && IsAnswer(c.steps[i]) && c.steps[i].turn == turn;
      StoredAnswersArePaid(cost, db, events, session, i);
    }
  }

  // ---- replays ----

  /** A replay calls no model and charges nothing; it repeats the first reply of the turn stored behind
      the result of the batch's first call. */
  lemma {:induction false} ReplayRepeats(cost: int, w: World, db: Database, r: Request)
    requires DbInv(cost, db) && Exec(w, db, r).1.out.Replay?
    ensures var (after, trace) := Exec(w, db, r);
            && r.ToolResult? && r.session in db.sessions && trace.sent == [] && after.account == db.account
            && r.items != [] && r.items[0].call in db.sessions[r.session].chat.calls
            && Some(trace.out.text) == FollowUpText(db.sessions[r.session].chat, r.items[0].call)
  {
    hide Continue, Truncate, ApplyResults, PendingClient, NextStepAfter, Consume, Grant, FollowUp, DbInv, Resolve,
        BatchFor;
    ContinueNeverReplays(w, db, r);
    var c := db.sessions[r.session].chat;
    ResolvedTurn(c, r.items);
    assert r.items != [] && r.items[0].call in c.calls by { BatchFirst(c, Resolve(c, r.items, None).0.value, r.items); }
    SessionInv(cost, db, r.session);
    ReplaysStored(c, db.account.initiated, db.next, Resolve(c, r.items, None).0.value, r.items, r.items[0]);
  }

  lemma {:induction false} BatchFirst(c: Chat, turn: Id, items: seq<ResultItem>)
    requires BatchFor(c, turn, items)
    ensures items != [] && items[0].call in c.calls && c.calls[items[0].call].turn == turn
  {
    assert items[0] in items;
  }

  /** A batch replays exactly when it leaves no client call pending and the turn had gone on after its
      first call. */
  lemma {:induction false} ReplaysExactly(cost: int, w: World, db: Database, r: Request, turn: Id)
    requires DbInv(cost, db) && r.ToolResult? && r.session in db.sessions
    requires BatchFor(db.sessions[r.session].chat, turn, r.items)
    ensures var c := db.sessions[r.session].chat;
            && r.items[0].call in c.calls
            && (Exec(w, db, r).1.out.Replay? <==>
                  Unanswered(w, c, turn, r.items) == {} && FollowUp(c, r.items[0].call).Some?)
  {
    hide Continue, ApplyResults, PendingClient, NextStepAfter, FollowUp, DbInv, BatchFor, ToolResultTurn, Unanswered;
    var s := db.sessions[r.session];
    var u := Unit(Store(s.chat, db.account), [], db.next, [], false);
    BatchFirst(s.chat, turn, r.items);
    SessionInv(cost, db, r.session);
    ReplaysStored(s.chat, db.account.initiated, db.next, turn, r.items, r.items[0]);
    StillPending(w, s.chat, turn, r.items);
    BatchIs(w, s, turn, r.items, u);
    var d := ApplyResults(s.chat, r.items);
    ContinueSettles(w, turn, s.mode, s.hasProject, SetChat(u, d));
    FinishSame(Continue(w, turn, s.mode, s.hasProject, SetChat(u, d)));
  }

  /** Who has paid for what is shown as an answer, after any run of a new user, in credits mode: a
      generated answer is paid; a replayed reply is exactly when the turn has an answer in the tables. */
  lemma {:induction false} ShownAnswerIsPaid(cost: int, db: Database, events: seq<Event>, w: World, r: Request)
    requires Fresh(db) && SameCost(cost, events) && WorldsOk(events) && w.cost == cost
    requires ModeOf(Play(db, events), r) == Some(Policy.Credits)
    ensures var now := Play(db, events);
            var (after, trace) := Exec(w, now, r);
            && (trace.out.AssistantMessageOut? ==>
                  BaseOf(w, now, r).Some? && PaidFor(after.account, BaseOf(w, now, r).value.turn))
            && (trace.out.Replay? ==>
                  && r.ToolResult? && r.session in now.sessions
                  && r.items != [] && r.items[0].call in now.sessions[r.session].chat.calls
                  && var c := now.sessions[r.session].chat;
                     var turn := c.calls[r.items[0].call].turn;
                     PaidFor(after.account, turn) <==> HasAnswer(c, turn))
  {
    hide Play, Exec, Fresh, PaidFor, HasAnswer, WorldsOk, BaseOf, FollowUp, DbInv;
    var now := Play(db, events);
    FreshHolds(cost, db);
    PlayKeeps(cost, db, events);
    var out := Exec(w, now, r).1.out;
    if out.AssistantMessageOut? {
      CreditsAnswersArePaid(cost, w, now, r);
    } else if out.Replay? {
      ReplayRepeats(cost, w, now, r);
      PaidExactly(cost, db, events, r.session, r.items[0].call);
    }
  }

  // ---- redelivery ----

  /** A batch delivered again right after its generation answered, or was cut off, repeats the first
      reply of that generation, which is the response given then exactly when both have the same text;
      after a single model call they have. */
  lemma {:induction false} RedeliveryRepeatsFirst(cost: int, w: World, db: Database, r: Request)
    requires DbInv(cost, db) && w.cost == cost && r.ToolResult? && BaseOf(w, db, r).Some?
    requires Exec(w, db, r).1.out.AssistantMessageOut? || Exec(w, db, r).1.out.MaxTokensOut?
    ensures var (after, trace) := Exec(w, db, r);
            var first := w.model(0, Build(BaseOf(w, db, r).value.store.chat.steps));
            && first.Reply?
            && Exec(w, after, r).1.out == Replay(TextOf(first.content))
            && (Exec(w, after, r).1.out == Replay(trace.out.text) <==> TextOf(first.content) == trace.out.text)
            && (|trace.sent| == 1 ==> Exec(w, after, r).1.out == Replay(trace.out.text))
  {
    hide Exec, DbInv, BaseOf, ClosedBy, Reports, FollowUp, Unanswered;
    var (after, trace) := Exec(w, db, r);
    var b := BaseOf(w, db, r).value;
    RequestReplies(cost, w, db, r);
    ResponseAgrees(cost, w, db, r);
    AfterGeneration(cost, w, db, r);
    ExecKeeps(cost, w, db, r);
    ReplaysExactly(cost, w, after, r, b.turn);
    ReplayRepeats(cost, w, after, r);
  }

  /** What the redelivered batch finds: the session as committed, every call of the batch answered, and
      the first reply right behind the rows the generation began with. */
  lemma {:induction false} AfterGeneration(cost: int, w: World, db: Database, r: Request)
    requires DbInv(cost, db) && w.cost == cost && r.ToolResult? && BaseOf(w, db, r).Some?
    requires Exec(w, db, r).1.out.AssistantMessageOut? || Exec(w, db, r).1.out.MaxTokensOut?
    ensures var (after, trace) := Exec(w, db, r);
            var b := BaseOf(w, db, r).value;
            && r.session in after.sessions
            && var e := after.sessions[r.session].chat;
            && BatchFor(e, b.turn, r.items)
            && Unanswered(w, e, b.turn, r.items) == {}
            && r.items[0].call in e.calls
            && |b.store.chat.steps| < |e.steps|
            && FollowUp(e, r.items[0].call) == Some(|b.store.chat.steps|)
            && w.model(0, Build(b.store.chat.steps)).Reply?
            && e.steps[|b.store.chat.steps|].body.Assistant?
            && e.steps[|b.store.chat.steps|].body.content == w.model(0, Build(b.store.chat.steps)).content
  {
    hide Exec, DbInv, BaseOf, ClosedBy, Reports, FollowUp, Unanswered, BatchFor, PendingClient;
    var (after, trace) := Exec(w, db, r);
    var b := BaseOf(w, db, r).value;
    RequestReplies(cost, w, db, r);
    ResponseAgrees(cost, w, db, r);
    ReportedGrew(w, b, after.next, trace);
    ContinuedBatch(cost, w, db, r);
    LastInstalled(w, db, r);
    var d, e := b.store.chat, after.sessions[r.session].chat;
    GrownBatch(d, e, b.turn, r.items);
    QuietAfter(w, b, after.next, trace);
    assert Unanswered(w, e, b.turn, r.items) == {} by { NoneUnanswered(w, e, b.turn, r.items); }
    BatchFirst(d, b.turn, r.items);
    FirstBehind(d, e, b.turn, r.items[0].call);
  }

  lemma {:induction false} LastInstalled(w: World, db: Database, r: Request)
    requires r.ToolResult? && r.session in db.sessions && Exec(w, db, r).1.log != []
    ensures var (after, trace) := Exec(w, db, r);
            r.session in after.sessions && after.sessions[r.session].chat == trace.log[|trace.log| - 1].chat
  {
    hide ToolResultTurn, Finish;
  }

  /** The rows after the batch: its calls are answered, none waits, and the turn has not gone on. */
  lemma {:induction false} ContinuedBatch(cost: int, w: World, db: Database, r: Request)
    requires DbInv(cost, db) && r.ToolResult? && BaseOf(w, db, r).Some?
    ensures var b := BaseOf(w, db, r).value;
            var d := b.store.chat;
            && r.session in db.sessions
            && BatchFor(d, b.turn, r.items)
            && PendingClient(w, d, b.turn) == {}
            && r.items[0].call in d.calls
            && FollowUp(d, r.items[0].call).None?
            && FirstIndex(d.steps, 0, IsResult(b.turn, r.items[0].call)).Some?
  {
    hide DbInv, ApplyResults, PendingClient, NextStepAfter, Resolve, ChatInv, Settle, FirstFor;
    var c := db.sessions[r.session].chat;
    var b := BaseOf(w, db, r).value;
    var d := b.store.chat;
    ResolvedTurn(c, r.items);
    SessionInv(cost, db, r.session);
    ApplyKeeps(c, db.account.initiated, db.next, r.items);
    AppliedBatch(c, b.turn, r.items, r.items);
    BatchFirst(d, b.turn, r.items);
    var id := r.items[0].call;
    assert id in c.calls && !d.calls[id].status.Pending? by {
      BatchFirst(c, b.turn, r.items);
      ApplySettles(c, r.items, id);
      NamedIsSettled(c.calls[id], r.items, r.items[0]);
    }
    AnsweredHasResult(d, db.account.initiated, db.next, id);
    assert NextStepAfter(d, b.turn, id).None?;
    NoStepAfter(d, b.turn, id);
  }

  lemma {:induction false} NoStepAfter(d: Chat, turn: Id, id: Id)
    requires id in d.calls && d.calls[id].turn == turn && NextStepAfter(d, turn, id).None?
    ensures FollowUp(d, id).None?
  {
  }

  lemma {:induction false} GrownBatch(d: Chat, e: Chat, turn: Id, items: seq<ResultItem>)
    requires BatchFor(d, turn, items) && forall id :: id in d.calls ==> id in e.calls && e.calls[id] == d.calls[id]
    ensures BatchFor(e, turn, items)
  {
  }

  /** After an answer or a cut reply no client call of the turn waits. */
  lemma {:induction false} QuietAfter(w: World, b: Base, next: Id, trace: Trace)
    requires Reports(w, b, next, trace) && trace.log != [] && PendingClient(w, b.store.chat, b.turn) == {}
    requires trace.out.AssistantMessageOut? || trace.out.MaxTokensOut?
    ensures PendingClient(w, trace.log[|trace.log| - 1].chat, b.turn) == {}
  {
    hide AccountGrew, SentOk, ToolsOf, Rows;
    var s := trace.log[|trace.log| - 1];
    assert StoreGrew(b, s, next);
    assert ClientIds([]) == {};
    forall id | id in s.chat.calls ensures id !in PendingClient(w, s.chat, b.turn) {
      assert !NewPending(b, s.chat, id);
      if id in b.store.chat.calls { assert id !in PendingClient(w, b.store.chat, b.turn); }
    }
  }

  lemma {:induction false} NoneUnanswered(w: World, c: Chat, turn: Id, items: seq<ResultItem>)
    requires PendingClient(w, c, turn) == {}
    ensures Unanswered(w, c, turn, items) == {}
  {
  }

  /** The turn goes on at the first step behind rows that hold the result and nothing after it. */
  lemma {:induction false} FirstBehind(d: Chat, e: Chat, turn: Id, id: Id)
    requires id in d.calls && id in e.calls && d.calls[id].turn == turn && e.calls[id].turn == turn
    requires d.steps <= e.steps && |d.steps| < |e.steps| && IsAssistant(turn)(e.steps[|d.steps|])
    requires FirstIndex(d.steps, 0, IsResult(turn, id)).Some? && FollowUp(d, id).None?
    ensures FollowUp(e, id) == Some(|d.steps|)
  {
    var j := FirstIndex(d.steps, 0, IsResult(turn, id)).value;
    assert IsResult(turn, id)(e.steps[j]);
    assert FirstIndex(e.steps, 0, IsResult(turn, id)) == Some(j) by {
      assert forall i :: 0 <= i < j ==> !IsResult(turn, id)(d.steps[i]) && e.steps[i] == d.steps[i];
    }
    assert forall i :: j + 1 <= i < |d.steps| ==> !IsAssistant(turn)(d.steps[i]) && e.steps[i] == d.steps[i];
  }

  lemma {:induction false} ContinueNeverReplays(w: World, db: Database, r: Request)
    requires Exec(w, db, r).1.out.Replay?
    ensures r.ToolResult? && r.session in db.sessions && BaseOf(w, db, r).None?
  {
    hide Continue, Finish, Truncate, ApplyResults, PendingClient, NextStepAfter, Consume, Grant, Resolve;
    match r
    case Run(_, _, _, _, q) =>
      var (id, s, isNew) := Target(db, r);
      var u := Unit(Store(s.chat, db.account), [], if isNew then db.next + 1 else db.next, [], false);
      FinishSame(RunTurn(w, s, isNew, q, u));
      RunNeverReplays(w, s, isNew, q, u);
    case TemporaryRun(transcript, mode, q) =>
      var chat := Chat(Seed(transcript, db.next), map[]);
      var u := Unit(Store(chat, db.account), [], db.next + |chat.steps|, [], true);
      FinishSame(RunTurn(w, Session(chat, mode, false), true, q, u));
      RunNeverReplays(w, Session(chat, mode, false), true, q, u);
    case ToolResult(id, items) =>
      if BaseOf(w, db, r).Some? {
        GenerationIs(w, db, r);
        var b := BaseOf(w, db, r).value;
        var s := Place(db, r).1;
        ContinueSettles(w, b.turn, s.mode, s.hasProject, Opening(b));
      }
    case _ =>
  }

  lemma {:induction false} RunNeverReplays(w: World, s: Session, isNew: bool, q: RunRequest, u: Unit)
    requires u.log == []
    ensures !RunTurn(w, s, isNew, q, u).1.Replay?
  {
    hide Continue, Finish, Truncate;
    var turn := u.next;
    var v := u.(next := turn + 1);
    var cut := if q.edit.None? then Some(v.work.chat) else if isNew then None else Truncate(v.work.chat, q.edit.value);
    if cut.Some? {
      var x := Write(SetChat(v, cut.value), turn, User(q.content, q.actionPrompt));
      FinishSame(Continue(w, turn, s.mode, s.hasProject, x));
      ContinueSettles(w, turn, s.mode, s.hasProject, x);
    }
  }
}
