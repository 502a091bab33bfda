/** Tool results: the first one for a call wins, however they are split into batches. */
module ToolResults {
  import opened Wallet
  import opened Records
  import opened Repository
  import opened Engine
  import opened Money
  import opened History
  import opened Growth
  import opened TurnSafety
  import opened Runs
  import opened Responses
  import opened Billing
  import Policy

  /** The first item of a stream that names a call. */
  function FirstFor(items: seq<ResultItem>, id: Id): (r: Option<ResultItem>)
    ensures r.None? <==> forall i :: 0 <= i < |items| ==> items[i].call != id
    ensures r.Some? ==> r.value in items && r.value.call == id
  {
    if items == [] then None
    else if items[0].call == id then Some(items[0])
    else FirstFor(items[1..], id)
  }

  /** What a result makes of the row of its call. */
  function Settle(call: Call, item: Option<ResultItem>): Call {
    if call.status.Pending? && item.Some?
    then call.(status := if item.value.error.Some? then Errored else Completed,
               result := if item.value.result.Some? then item.value.result else item.value.error)
    else call
  }

  lemma {:induction false} FirstConcat(a: seq<ResultItem>, b: seq<ResultItem>, id: Id)
    ensures FirstFor(a + b, id) == if FirstFor(a, id).Some? then FirstFor(a, id) else FirstFor(b, id)
  {
    if a == [] {
      assert a + b == b;
    } else {
      assert (a + b)[1..] == a[1..] + b;
      FirstConcat(a[1..], b, id);
    }
  }

  /** A batch settles every call with its first item for it; no call appears or disappears. */
  lemma {:induction false} ApplySettles(c: Chat, items: seq<ResultItem>, id: Id)
    ensures id in ApplyResults(c, items).calls <==> id in c.calls
    ensures id in c.calls ==> ApplyResults(c, items).calls[id] == Settle(c.calls[id], FirstFor(items, id))
    decreases |items|
  {
    if items != [] {
      var x := items[0];
      var d := if x.call in c.calls then Answer(c, x.call, x.result, x.error) else c;
      ApplySettles(d, items[1..], id);
      if id in c.calls && x.call != id { assert d.calls[id] == c.calls[id]; }
    }
  }

  predicate BatchFor(c: Chat, turn: Id, items: seq<ResultItem>) {
    items != [] && forall item :: item in items ==> item.call in c.calls && c.calls[item.call].turn == turn
  }

  /** What the rows of the calls of `c` have become in `d`. */
  ghost predicate SettledBy(c: Chat, items: seq<ResultItem>, d: Chat) {
    forall id :: id in c.calls ==> id in d.calls && d.calls[id] == Settle(c.calls[id], FirstFor(items, id))
  }

  /** A generation commits at least the rows it starts with. */
  lemma {:induction false} ContinueCommits(w: World, turn: Id, mode: Policy.Mode, hasProject: bool, u: Unit)
    requires Starts(u)
    ensures Finish(Continue(w, turn, mode, hasProject, u)).0.unit.log != []
  {
    hide Round;
    var s := u.work.account.PolicyState();
    var t := Turn(turn, mode, Policy.BillingPlan(mode, s), hasProject);
    LoopCommits(w, t, Progress(u, [], [], []), w.rounds + 1);
  }

  lemma {:induction false} LoopCommits(w: World, t: Turn, p: Progress, n: nat)
    ensures Loop(w, t, p, n).0.unit.log != []
    decreases n
  {
    hide Round;
    if n > 0 {
      RoundSends(w, t, p);
      match Round(w, t, p) {
        case Halt(_, _) =>
        case More(q) => LoopCommits(w, t, q, n - 1);
      }
    }
  }

  /** One accepted batch, whatever is generated after it. */
  lemma {:induction false} BatchSettles(cost: int, w: World, db: Database, r: Request, turn: Id)
    requires DbInv(cost, db) && w.cost == cost && r.ToolResult? && r.session in db.sessions
    requires BatchFor(db.sessions[r.session].chat, turn, r.items)
    ensures var after := Exec(w, db, r).0;
            r.session in after.sessions && SettledBy(db.sessions[r.session].chat, r.items, after.sessions[r.session].chat)
  {
    hide DbInv, ChatInv, Continue, PendingClient, Grounded, ApplyResults, NextStepAfter, Settle, FirstFor;
    var s := db.sessions[r.session];
    var d := ApplyResults(s.chat, r.items);
    forall id | id in s.chat.calls
      ensures id in d.calls && d.calls[id] == Settle(s.chat.calls[id], FirstFor(r.items, id))
    {
      ApplySettles(s.chat, r.items, id);
    }
    assert Resolve(s.chat, r.items, None).0 == Some(turn);
    if BaseOf(w, db, r).Some? {
      hide Exec, Finish;
      ToolResultReports(cost, w, db, r);
      GenerationIs(w, db, r);
      ContinueCommits(w, turn, s.mode, s.hasProject, Opening(BaseOf(w, db, r).value));
      var trace := Exec(w, db, r).1;
      LastGrew(w, BaseOf(w, db, r).value, Exec(w, db, r).0.next, trace);
    }
  }

  lemma {:induction false} LastGrew(w: World, b: Base, next: Id, trace: Trace)
    requires Reports(w, b, next, trace) && trace.log != []
    ensures var d := trace.log[|trace.log| - 1].chat;
            forall id :: id in b.store.chat.calls ==> id in d.calls && d.calls[id] == b.store.chat.calls[id]
  {
    hide AccountGrew, Agrees, SentOk, PendingClient;
    assert StoreGrew(b, trace.log[|trace.log| - 1], next);
  }

  /** All items of a list of deliveries, in order. */
  function Stream(events: seq<Event>): seq<ResultItem>
    requires forall e :: e in events ==> e.request.ToolResult?
  {
    if events == [] then [] else Stream(events[..|events| - 1]) + events[|events| - 1].request.items
  }

  ghost predicate Deliveries(cost: int, c: Chat, turn: Id, session: Id, events: seq<Event>) {
    forall e :: e in events ==>
      && e.world.cost == cost
      && e.request.ToolResult? && e.request.session == session
      && BatchFor(c, turn, e.request.items)
  }

  lemma {:induction false} StillBatch(c: Chat, items: seq<ResultItem>, d: Chat, turn: Id, batch: seq<ResultItem>)
    requires SettledBy(c, items, d) && BatchFor(c, turn, batch)
    ensures BatchFor(d, turn, batch)
  {
  }

  lemma {:induction false} SettledTrans(c: Chat, a: seq<ResultItem>, d: Chat, b: seq<ResultItem>, e: Chat)
    requires SettledBy(c, a, d) && SettledBy(d, b, e)
    ensures SettledBy(c, a + b, e)
  {
    forall id | id in c.calls
      ensures id in e.calls && e.calls[id] == Settle(c.calls[id], FirstFor(a + b, id))
    {
      FirstConcat(a, b, id);
    }
  }

  /** First write wins: after any deliveries for a turn, with the generations they trigger, every call
      holds the first item of the whole stream for it, if it was pending, and else what it held. */
  lemma {:induction false} DeliveriesSettle(cost: int, db: Database, session: Id, turn: Id, events: seq<Event>)
    requires DbInv(cost, db) && session in db.sessions
    requires Deliveries(cost, db.sessions[session].chat, turn, session, events)
    ensures var after := Play(db, events);
            && session in after.sessions
            && SettledBy(db.sessions[session].chat, Stream(events), after.sessions[session].chat)
  {
    hide DbInv, Exec, SettledBy, BatchFor;
    var c := db.sessions[session].chat;
    if events == [] {
      SettledNothing(c);
    } else {
      var n := |events| - 1;
      DeliveriesSettle(cost, db, session, turn, events[..n]);
      var before := Play(db, events[..n]);
      PlayKeeps(cost, db, events[..n]);
      StillBatch(c, Stream(events[..n]), before.sessions[session].chat, turn, events[n].request.items);
      BatchSettles(cost, events[n].world, before, events[n].request, turn);
      SettledTrans(c, Stream(events[..n]), before.sessions[session].chat, events[n].request.items,
                   Play(db, events).sessions[session].chat);
    }
  }

  lemma {:induction false} SettledNothing(c: Chat)
    ensures SettledBy(c, [], c)
  {
  }

  /** Splitting, repeating or overlapping the batches makes no difference to statuses and results, as
      long as each call's first item is the same. */
  lemma {:induction false} SplitIndependent(cost: int, db: Database, session: Id, turn: Id, one: seq<Event>,
                                            two: seq<Event>)
    requires DbInv(cost, db) && session in db.sessions
    requires Deliveries(cost, db.sessions[session].chat, turn, session, one)
    requires Deliveries(cost, db.sessions[session].chat, turn, session, two)
    requires forall id :: FirstFor(Stream(one), id) == FirstFor(Stream(two), id)
    ensures session in Play(db, one).sessions && session in Play(db, two).sessions
    ensures forall id :: id in db.sessions[session].chat.calls ==>
              && id in Play(db, one).sessions[session].chat.calls
              && id in Play(db, two).sessions[session].chat.calls
              && Play(db, one).sessions[session].chat.calls[id] == Play(db, two).sessions[session].chat.calls[id]
  {
    hide DbInv, Play, Stream, Deliveries, FirstFor;
    DeliveriesSettle(cost, db, session, turn, one);
    DeliveriesSettle(cost, db, session, turn, two);
  }

  /** A result for a call that already has one changes neither its row nor the history. */
  lemma {:induction false} LateResultIgnored(c: Chat, items: seq<ResultItem>)
    requires forall item :: item in items ==> item.call in c.calls && !c.calls[item.call].status.Pending?
    ensures ApplyResults(c, items) == c
    decreases |items|
  {
    if items != [] {
      assert items[0] in items;
      LateResultIgnored(c, items[1..]);
    }
  }

  /** Items for an older batch may be merged with newer ones without changing the rows or the steps. */
  lemma {:induction false} ApplySplits(c: Chat, a: seq<ResultItem>, b: seq<ResultItem>)
    ensures ApplyResults(c, a + b) == ApplyResults(ApplyResults(c, a), b)
    decreases |a|
  {
    if a == [] {
      assert a + b == b;
    } else {
      var d := if a[0].call in c.calls then Answer(c, a[0].call, a[0].result, a[0].error) else c;
      assert (a + b)[1..] == a[1..] + b;
      ApplySplits(d, a[1..], b);
    }
  }

  lemma {:induction false} AppliedBatch(c: Chat, turn: Id, a: seq<ResultItem>, b: seq<ResultItem>)
    requires BatchFor(c, turn, a) && BatchFor(c, turn, b)
    ensures BatchFor(ApplyResults(c, a), turn, b) && BatchFor(c, turn, a + b)
  {
    hide ApplyResults, FirstFor;
    forall item | item in b
      ensures item.call in ApplyResults(c, a).calls && ApplyResults(c, a).calls[item.call].turn == turn
    {
      ApplySettles(c, a, item.call);
    }
  }

  /** `tool_result` for a batch that resolves to one turn. */
  function Batch(w: World, s: Session, turn: Id, d: Chat, first: Id, u: Unit): (Progress, Outcome) {
    var v := SetChat(u, d);
    var pending := PendingClient(w, d, turn);
    if pending != {} then (Progress(Commit(v), [], [], []), Awaiting(pending))
    else
      match NextStepAfter(d, turn, first)
      case Some(step) => (Progress(v, [], [], []), Replay(TextOf(step.body.content)))
      case None => Continue(w, turn, s.mode, s.hasProject, v)
  }

  lemma {:induction false} BatchIs(w: World, s: Session, turn: Id, items: seq<ResultItem>, u: Unit)
    requires BatchFor(u.work.chat, turn, items)
    ensures ToolResultTurn(w, s, items, u) == Batch(w, s, turn, ApplyResults(u.work.chat, items), items[0].call, u)
  {
    hide Continue, PendingClient, ApplyResults, NextStepAfter;
    assert Resolve(u.work.chat, items, None).0 == Some(turn) by { assert items[0] in items; }
  }

  lemma {:induction false} BatchCommits(w: World, s: Session, turn: Id, d: Chat, first: Id, u: Unit)
    requires Starts(u)
    ensures Finish(Batch(w, s, turn, d, first, u)).0.unit.log != []
  {
    hide Continue, PendingClient, NextStepAfter;
    ContinueCommits(w, turn, s.mode, s.hasProject, SetChat(u, d));
  }

  /** Where the turn went on after a call: its first assistant step behind the result of the call. */
  function FollowUp(c: Chat, id: Id): (r: Option<nat>)
    requires id in c.calls
    ensures r.Some? ==> r.value < |c.steps| && IsAssistant(c.calls[id].turn)(c.steps[r.value])
  {
    match FirstIndex(c.steps, 0, IsResult(c.calls[id].turn, id))
    case None => None
    case Some(j) => FirstIndex(c.steps, j + 1, IsAssistant(c.calls[id].turn))
  }

  function FollowUpText(c: Chat, id: Id): Option<string>
    requires id in c.calls
  {
    match FollowUp(c, id) case None => None case Some(i) => Some(TextOf(c.steps[i].body.content))
  }

  /** Once a call is answered, its result is found. */
  lemma {:induction false} AnsweredHasResult(c: Chat, initiated: map<Id, Id>, next: Id, id: Id)
    requires ChatInv(c, initiated, next) && id in c.calls && !c.calls[id].status.Pending?
    ensures FirstIndex(c.steps, 0, IsResult(c.calls[id].turn, id)).Some?
  {
    hide ResultCount, CallsHaveSteps;
    assert CallInv(c, initiated, id);
    ResultCountZero(c.steps, id);
    var i :| 0 <= i < |c.steps| && c.steps[i].body.Tool? && c.steps[i].body.call == id;
    assert StepInv(c, initiated, next, c.steps[i]);
    assert IsResult(c.calls[id].turn, id)(c.steps[i]);
  }

  /** A batch of results appends tool steps only. */
  lemma {:induction false} ApplyAppends(c: Chat, items: seq<ResultItem>)
    ensures var d := ApplyResults(c, items);
            c.steps <= d.steps && forall i :: |c.steps| <= i < |d.steps| ==> d.steps[i].body.Tool?
    decreases |items|
  {
    if items != [] {
      var x := items[0];
      ApplyAppends(if x.call in c.calls then Answer(c, x.call, x.result, x.error) else c, items[1..]);
    }
  }

  /** What decides between replay and generation after a batch is what was stored before it. */
  lemma {:induction false} ReplaysStored(c: Chat, initiated: map<Id, Id>, next: Id, turn: Id, items: seq<ResultItem>,
                                         item: ResultItem)
    requires ChatInv(c, initiated, next) && BatchFor(c, turn, items) && item in items
    ensures NextStepAfter(ApplyResults(c, items), turn, item.call) ==
            match FollowUp(c, item.call) case None => None case Some(i) => Some(c.steps[i])
  {
    hide ChatInv, ApplyResults, Settle;
    var id := item.call;
    var d := ApplyResults(c, items);
    ApplyAppends(c, items);
    ApplySettles(c, items, id);
    ApplyKeeps(c, initiated, next, items);
    assert !d.calls[id].status.Pending? && d.calls[id].turn == turn by { NamedIsSettled(c.calls[id], items, item); }
    AnsweredHasResult(d, initiated, next, id);
    var p, q := IsResult(turn, id), IsAssistant(turn);
    var j := FirstIndex(d.steps, 0, p).value;
    if j < |c.steps| {
      assert p(c.steps[j]) && FirstIndex(c.steps, 0, p) == Some(j);
      FirstOfPrefix(c.steps, d.steps, j + 1, q);
    } else {
      assert FirstIndex(c.steps, 0, p).None?;
      assert FirstIndex(d.steps, j + 1, q).None?;
      if !c.calls[id].status.Pending? { AnsweredHasResult(c, initiated, next, id); }
    }
  }

  lemma {:induction false} NamedIsSettled(call: Call, items: seq<ResultItem>, item: ResultItem)
    requires item in items
    ensures !Settle(call, FirstFor(items, item.call)).status.Pending?
        && Settle(call, FirstFor(items, item.call)).turn == call.turn
  {
  }

  lemma {:induction false} FirstOfPrefix(a: seq<Step>, b: seq<Step>, from: nat, q: Step -> bool)
    requires a <= b && from <= |a| && forall i :: |a| <= i < |b| ==> !q(b[i])
    ensures FirstIndex(b, from, q) == FirstIndex(a, from, q)
  {
    var (x, y) := (FirstIndex(a, from, q), FirstIndex(b, from, q));
    if y.Some? { assert q(a[y.value]); }
    if x.Some? { assert q(b[x.value]); }
  }

  /** The client calls of a turn that a batch leaves without a result. */
  function Unanswered(w: World, c: Chat, turn: Id, items: seq<ResultItem>): set<Id> {
    set id | id in PendingClient(w, c, turn) && FirstFor(items, id).None?
  }

  lemma {:induction false} StillPending(w: World, c: Chat, turn: Id, items: seq<ResultItem>)
    ensures PendingClient(w, ApplyResults(c, items), turn) == Unanswered(w, c, turn, items)
  {
    hide ApplyResults, FirstFor;
    forall id ensures id in PendingClient(w, ApplyResults(c, items), turn) <==> id in Unanswered(w, c, turn, items) {
      ApplySettles(c, items, id);
    }
  }

  /** Two responses to the same rows agree exactly when both generate or both replay the same text. */
  lemma {:induction false} BatchesAgree(w: World, s: Session, turn: Id, d: Chat, a: Id, b: Id, u: Unit)
    requires Starts(u)
    ensures Finish(Batch(w, s, turn, d, a, u)) == Finish(Batch(w, s, turn, d, b, u)) <==>
              || PendingClient(w, d, turn) != {}
              || match (NextStepAfter(d, turn, a), NextStepAfter(d, turn, b))
                 case (None, None) => true
                 case (Some(x), Some(y)) => TextOf(x.body.content) == TextOf(y.body.content)
                 case _ => false
    ensures Finish(Batch(w, s, turn, d, a, u)) == Finish(Batch(w, s, turn, d, b, u)) <==>
            Finish(Batch(w, s, turn, d, a, u)).1 == Finish(Batch(w, s, turn, d, b, u)).1
  {
    hide Continue, PendingClient, NextStepAfter;
    ContinueSettles(w, turn, s.mode, s.hasProject, SetChat(u, d));
  }

  /** A batch that leaves the barrier closed, and the next one, against both merged into one: database
      and response are the same, generation included, exactly when a client call stays pending, or the
      turn went on after neither batch's first call, or with the same text after both. */
  lemma {:induction false} ClosedBarrierMerges(cost: int, w: World, db: Database, session: Id, turn: Id,
                                               a: seq<ResultItem>, b: seq<ResultItem>)
    requires DbInv(cost, db) && session in db.sessions
    requires var c := db.sessions[session].chat;
             BatchFor(c, turn, a) && BatchFor(c, turn, b) && Unanswered(w, c, turn, a) != {}
    ensures var c := db.sessions[session].chat;
            var (waiting, first) := Exec(w, db, ToolResult(session, a));
            && first.out.Awaiting? && first.sent == []
            && (Exec(w, waiting, ToolResult(session, b)) == Exec(w, db, ToolResult(session, a + b)) <==>
                  Unanswered(w, c, turn, a + b) != {} || FollowUpText(c, a[0].call) == FollowUpText(c, b[0].call))
  {
    hide Continue, PendingClient, ApplyResults, NextStepAfter, ToolResultTurn, FollowUp, DbInv, Unanswered;
    var s := db.sessions[session];
    AppliedBatch(s.chat, turn, a, b);
    ApplySplits(s.chat, a, b);
    StillPending(w, s.chat, turn, a);
    StillPending(w, s.chat, turn, a + b);
    var c := ApplyResults(s.chat, a);
    var u := Unit(Store(s.chat, db.account), [], db.next, [], false);
    BatchIs(w, s, turn, a, u);
    BatchIs(w, s, turn, a + b, u);
    BatchIs(w, s.(chat := c), turn, b, SetChat(u, c));
    var waiting := Exec(w, db, ToolResult(session, a)).0;
    assert waiting == db.(sessions := db.sessions[session := s.(chat := c)]);
    var d := ApplyResults(s.chat, a + b);
    SessionInv(cost, db, session);
    ReplaysStored(s.chat, db.account.initiated, db.next, turn, a + b, a[0]);
    ReplaysStored(s.chat, db.account.initiated, db.next, turn, a + b, b[0]);
    BatchesAgree(w, s, turn, d, a[0].call, b[0].call, u);
    BatchCommits(w, s, turn, d, b[0].call, u);
    hide Batch, Finish, ChatInv;
    var p := Finish(Batch(w, s, turn, d, b[0].call, u)).0;
    assert Install(waiting, session, s.(chat := c), p.unit) == Install(db, session, s, p.unit);
  }

  lemma {:induction false} SessionInv(cost: int, db: Database, session: Id)
    requires DbInv(cost, db) && session in db.sessions
    ensures ChatInv(db.sessions[session].chat, db.account.initiated, db.next)
  {
  }
}
