/** Invariants of one session's rows, for every committed state. */
module History {
  import opened Wallet
  import opened Records
  import opened Repository
  import opened Pairing

  predicate IsPending(c: Chat, id: Id) { id in c.calls && c.calls[id].status.Pending? }

  /** A tool call is pending iff no tool step carries its id; otherwise exactly one does. */
  ghost predicate CallInv(c: Chat, initiated: map<Id, Id>, id: Id)
    requires id in c.calls
  {
    && id in initiated
    && initiated[id] == c.calls[id].turn
    && ResultCount(c.steps, id) == if c.calls[id].status.Pending? then 0 else 1
  }

  /** A tool step repeats what the row of its call says. */
  predicate ResultMatches(s: Step, call: Call)
    requires s.body.Tool?
  {
    && s.turn == call.turn
    && s.body.provider == call.provider
    && s.body.tool == call.tool
    && call.status == (if s.body.error.Some? then Errored else Completed)
    && call.result == (if s.body.result.Some? then s.body.result else s.body.error)
  }

  ghost predicate StepInv(c: Chat, initiated: map<Id, Id>, next: Id, s: Step) {
    && s.turn < next
    && s.turn !in initiated
    && (s.body.Tool? ==> s.body.call < next)
    && (s.body.Tool? && s.body.call in c.calls ==> ResultMatches(s, c.calls[s.body.call]))
  }

  ghost predicate ChatInv(c: Chat, initiated: map<Id, Id>, next: Id) {
    && (forall id :: id in c.calls ==> id < next && CallInv(c, initiated, id))
    && (forall i :: 0 <= i < |c.steps| ==> StepInv(c, initiated, next, c.steps[i]))
    && CallsHaveSteps(c)
  }

  lemma {:induction false} TurnsSnoc(steps: seq<Step>, s: Step)
    ensures Turns(steps + [s]) == Turns(steps) + {s.turn}
  {
    forall t | t in Turns(steps) + {s.turn} ensures t in Turns(steps + [s]) {
      if t == s.turn {
        assert (steps + [s])[|steps|] == s;
      } else {
        var i :| 0 <= i < |steps| && steps[i].turn == t;
        assert (steps + [s])[i] == steps[i];
      }
    }
  }

  lemma {:induction false} EmptyChat(initiated: map<Id, Id>, next: Id)
    ensures ChatInv(Chat([], map[]), initiated, next)
  {
  }

  lemma {:induction false} LaterKeepsChat(c: Chat, initiated: map<Id, Id>, next: Id, id: Id, turn: Id)
    requires ChatInv(c, initiated, next) && turn < next <= id
    ensures ChatInv(c, initiated[id := turn], id + 1)
    ensures ChatInv(c, initiated, id)
  {
    hide CallsHaveSteps, ResultCount, ResultMatches;
    forall k | k in c.calls ensures CallInv(c, initiated[id := turn], k) && CallInv(c, initiated, k) && k < id {
      assert CallInv(c, initiated, k);
    }
    forall i | 0 <= i < |c.steps|
      ensures StepInv(c, initiated[id := turn], id + 1, c.steps[i]) && StepInv(c, initiated, id, c.steps[i])
    {
      assert StepInv(c, initiated, next, c.steps[i]);
    }
  }

  lemma {:induction false} WriteKeepsChat(c: Chat, initiated: map<Id, Id>, next: Id, turn: Id, body: Body)
    requires ChatInv(c, initiated, next) && turn < next && turn !in initiated && !body.Tool?
    ensures ChatInv(AddStep(c, turn, body), initiated, next)
  {
    hide ResultCount, ResultMatches;
    var d := AddStep(c, turn, body);
    TurnsSnoc(c.steps, Step(turn, body));
    forall id | id in d.calls ensures id < next && CallInv(d, initiated, id) {
      assert CallInv(c, initiated, id);
      ResultCountSnoc(c.steps, Step(turn, body), id);
    }
    forall i | 0 <= i < |d.steps| ensures StepInv(d, initiated, next, d.steps[i]) {
      if i < |c.steps| { assert StepInv(c, initiated, next, c.steps[i]); }
    }
  }

  lemma {:induction false} OpenCallKeepsChat(c: Chat, initiated: map<Id, Id>, next: Id, turn: Id,
                                             tool: string, args: string, provider: string)
    requires ChatInv(c, initiated, next) && turn < next && turn in Turns(c.steps)
    ensures ChatInv(CreateCall(c, next, turn, tool, args, provider), initiated[next := turn], next + 1)
  {
    hide ResultCount, ResultMatches;
    var d := CreateCall(c, next, turn, tool, args, provider);
    LaterKeepsChat(c, initiated, next, next, turn);
    var later := initiated[next := turn];
    forall i | 0 <= i < |d.steps| ensures StepInv(d, later, next + 1, d.steps[i]) {
      assert StepInv(c, later, next + 1, c.steps[i]) && StepInv(c, initiated, next, c.steps[i]);
    }
    forall id | id in d.calls ensures id < next + 1 && CallInv(d, later, id) {
      if id == next {
        ResultCountZero(c.steps, next);
        assert forall i :: 0 <= i < |c.steps| ==> StepInv(c, initiated, next, c.steps[i]);
      } else {
        assert CallInv(c, later, id);
      }
    }
  }

  function Recorded(c: Chat, id: Id, body: Body): Chat
    requires IsPending(c, id) && body.Tool?
  {
    AddStep(CompleteCall(c, id, if body.error.Some? then Errored else Completed,
                         if body.result.Some? then body.result else body.error).0,
            c.calls[id].turn, body)
  }

  predicate IsResultFor(c: Chat, id: Id, body: Body) {
    && IsPending(c, id)
    && body.Tool? && body.call == id
    && body.provider == c.calls[id].provider && body.tool == c.calls[id].tool
  }

  lemma {:induction false} AnswerKeepsCalls(c: Chat, initiated: map<Id, Id>, next: Id, id: Id, body: Body)
    requires ChatInv(c, initiated, next) && IsResultFor(c, id, body)
    ensures var d := Recorded(c, id, body);
            CallsHaveSteps(d) && forall k :: k in d.calls ==> k < next && CallInv(d, initiated, k)
  {
    hide ResultCount, ResultMatches, StepInv;
    var d, s := Recorded(c, id, body), Step(c.calls[id].turn, body);
    TurnsSnoc(c.steps, s);
    forall k | k in d.calls ensures k < next && CallInv(d, initiated, k) {
      assert CallInv(c, initiated, k);
      ResultCountSnoc(c.steps, s, k);
    }
    assert forall k :: k in d.calls ==> d.calls[k].turn == c.calls[k].turn;
  }

  lemma {:induction false} AnswerKeepsSteps(c: Chat, initiated: map<Id, Id>, next: Id, id: Id, body: Body)
    requires ChatInv(c, initiated, next) && IsResultFor(c, id, body)
    ensures var d := Recorded(c, id, body);
            forall i :: 0 <= i < |d.steps| ==> StepInv(d, initiated, next, d.steps[i])
  {
    hide ResultCount;
    var d, s := Recorded(c, id, body), Step(c.calls[id].turn, body);
    assert CallInv(c, initiated, id);
    ResultCountZero(c.steps, id);
    var j :| 0 <= j < |c.steps| && c.steps[j].turn == s.turn;
    assert StepInv(c, initiated, next, c.steps[j]);
    forall i | 0 <= i < |d.steps| ensures StepInv(d, initiated, next, d.steps[i]) {
      if i < |c.steps| { assert StepInv(c, initiated, next, c.steps[i]); }
    }
  }

  lemma {:induction false} AnswerKeepsChat(c: Chat, initiated: map<Id, Id>, next: Id, id: Id, body: Body)
    requires ChatInv(c, initiated, next) && IsResultFor(c, id, body)
    ensures ChatInv(Recorded(c, id, body), initiated, next)
  {
    AnswerKeepsCalls(c, initiated, next, id, body);
    AnswerKeepsSteps(c, initiated, next, id, body);
  }

  lemma {:induction false} CutKeepsCall(c: Chat, initiated: map<Id, Id>, next: Id, anchor: nat, id: Id)
    requires ChatInv(c, initiated, next) && anchor <= |c.steps| && id in CutAt(c, anchor).calls
    ensures CallInv(CutAt(c, anchor), initiated, id)
  {
    hide ResultCount, ResultMatches, CallsHaveSteps;
    var before, after := c.steps[..anchor], c.steps[anchor..];
    assert c.steps == before + after;
    assert CallInv(c, initiated, id);
    ResultCountConcat(before, after, id);
    ResultCountZero(after, id);
    forall i | 0 <= i < |after| ensures !(after[i].body.Tool? && after[i].body.call == id) {
      assert StepInv(c, initiated, next, c.steps[anchor + i]);
      assert after[i].turn in Turns(after);
      if after[i].body.Tool? && after[i].body.call == id { MatchTurn(after[i], c.calls[id]); }
    }
  }

  /** An edit keeps every invariant of the rows that remain, interleaved turns or not. */
  lemma {:induction false} CutKeepsChat(c: Chat, initiated: map<Id, Id>, next: Id, anchor: nat)
    requires ChatInv(c, initiated, next) && anchor <= |c.steps|
    ensures ChatInv(CutAt(c, anchor), initiated, next)
  {
    hide ResultCount, ResultMatches, CallInv;
    var d := CutAt(c, anchor);
    assert c.steps == c.steps[..anchor] + c.steps[anchor..];
    assert Turns(c.steps) == Turns(c.steps[..anchor]) + Turns(c.steps[anchor..]);
    forall id | id in d.calls ensures id < next && CallInv(d, initiated, id) {
      CutKeepsCall(c, initiated, next, anchor, id);
    }
    forall i | 0 <= i < |d.steps| ensures StepInv(d, initiated, next, d.steps[i]) {
      assert StepInv(c, initiated, next, c.steps[i]);
    }
  }

  lemma {:induction false} MatchTurn(s: Step, call: Call)
    requires s.body.Tool? && ResultMatches(s, call)
    ensures s.turn == call.turn
  {
  }

  // ---- pairing of the stored history ----

  function Open(c: Chat): Option<set<string>> { Scan(Build(c.steps)) }

  /** The history a provider accepts. */
  predicate Ready(c: Chat) { Open(c) == Some({}) }

  /** A stored reply that was cut off inside a tool_use. */
  predicate IsCut(s: Step) { s.body.Assistant? && s.body.cut && ToolIds(s.body.content) != {} }

  /** What a caller can look up in the tables: an unanswered call, or a reply cut off in a tool_use. */
  ghost predicate Loose(c: Chat) {
    (exists id :: IsPending(c, id)) || (exists i :: 0 <= i < |c.steps| && IsCut(c.steps[i]))
  }

  function Ids(uses: seq<Block>): set<string> { ToolIds(uses) }

  ghost predicate DistinctIds(uses: seq<Block>) {
    && (forall b :: b in uses ==> b.ToolUse?)
    && forall i, j :: 0 <= i < j < |uses| ==> uses[i].id != uses[j].id
  }

  ghost predicate NoCut(steps: seq<Step>) { forall i :: 0 <= i < |steps| ==> !IsCut(steps[i]) }

  ghost predicate Waits(c: Chat, p: string) { exists id :: IsPending(c, id) && c.calls[id].provider == p }

  /** The turn of the last step that is not a tool result. */
  function Asker(steps: seq<Step>): (r: Option<Id>)
    ensures r.Some? ==> exists i :: 0 <= i < |steps| && steps[i].turn == r.value && !steps[i].body.Tool?
                                    && forall j :: i < j < |steps| ==> steps[j].body.Tool?
    ensures r.None? ==> forall i :: 0 <= i < |steps| ==> steps[i].body.Tool?
  {
    if steps == [] then None
    else if !steps[|steps| - 1].body.Tool? then Some(steps[|steps| - 1].turn)
    else Asker(steps[..|steps| - 1])
  }

  lemma {:induction false} AskerSnoc(steps: seq<Step>, s: Step)
    ensures Asker(steps + [s]) == if s.body.Tool? then Asker(steps) else Some(s.turn)
  {
    assert (steps + [s])[..|steps|] == steps;
  }

  /** While the tool_use blocks `rest` of the last reply are still to be handled: what the history
      waits for are the pending calls, all of the turn that spoke last, and the ids of `rest`, without
      overlap. */
  ghost predicate MidInv(c: Chat, rest: seq<Block>) {
    Open(c).Some? ==>
      && NoCut(c.steps)
      && DistinctIds(rest)
      && Ids(rest) <= Open(c).value
      && (forall id :: IsPending(c, id) ==> c.calls[id].provider in Open(c).value - Ids(rest))
      && (forall id, ic :: IsPending(c, id) && IsPending(c, ic) && id != ic ==>
            c.calls[id].provider != c.calls[ic].provider)
      && (forall p :: p in Open(c).value - Ids(rest) ==> Waits(c, p))
      && (forall id :: IsPending(c, id) ==> Asker(c.steps) == Some(c.calls[id].turn))
  }

  /** Between rounds: the history is beyond repair, or it waits exactly for the pending calls, or its
      last reply was cut off and no call is pending. */
  ghost predicate PairInv(c: Chat) {
    || MidInv(c, [])
    || (&& c.steps != []
        && IsCut(c.steps[|c.steps| - 1])
        && NoCut(c.steps[..|c.steps| - 1])
        && (forall id :: !IsPending(c, id)))
  }

  /** The guard decides: an intact history is acceptable exactly when nothing is loose. */
  lemma {:induction false} GuardDecidesReady(c: Chat)
    requires PairInv(c) && Open(c).Some?
    ensures Ready(c) <==> !Loose(c)
    ensures Ready(c) <==> Paired(Build(c.steps))
  {
    hide Scan, Asker;
    ScanDecidesPaired(Build(c.steps));
    if MidInv(c, []) {
      assert Ids([]) == {};
      if p :| p in Open(c).value {
        assert Waits(c, p);
      } else {
        assert Open(c).value == {};
      }
    } else {
      var n := |c.steps| - 1;
      assert c.steps == c.steps[..n] + [c.steps[n]];
      ScanSnoc(c.steps[..n], c.steps[n]);
      assert IsCut(c.steps[n]);
    }
  }

  lemma {:induction false} ReadyIsQuiet(c: Chat)
    requires PairInv(c) && Ready(c)
    ensures NoCut(c.steps) && forall id :: !IsPending(c, id)
  {
    GuardDecidesReady(c);
    assert forall i :: 0 <= i < |c.steps| ==> !IsCut(c.steps[i]);
  }

  // ---- what each write does to the pairing ----

  /** A user message or a complete reply without tool_use. */
  lemma {:induction false} SpeakKeepsPair(c: Chat, turn: Id, body: Body)
    requires PairInv(c) && !body.Tool? && (body.Assistant? ==> !body.cut)
    requires body.Assistant? ==> ToolIds(body.content) == {}
    ensures PairInv(AddStep(c, turn, body))
    ensures Ready(c) ==> Ready(AddStep(c, turn, body))
    ensures !Ready(c) ==> Open(AddStep(c, turn, body)).None?
  {
    hide Scan, Asker;
    var d := AddStep(c, turn, body);
    ScanSnoc(c.steps, Step(turn, body));
    if Open(d).Some? {
      ReadyIsQuiet(c);
      NoCutSnoc(c.steps, Step(turn, body));
      assert forall id :: IsPending(d, id) <==> IsPending(c, id);
      assert MidInv(d, []);
    } else {
      assert MidInv(d, []);
    }
  }

  lemma {:induction false} NoCutSnoc(steps: seq<Step>, s: Step)
    ensures NoCut(steps + [s]) <==> NoCut(steps) && !IsCut(s)
  {
    if NoCut(steps + [s]) {
      forall i | 0 <= i < |steps| ensures !IsCut(steps[i]) { assert !IsCut((steps + [s])[i]); }
      assert !IsCut((steps + [s])[|steps|]);
    }
  }

  /** A reply cut off at the output limit. */
  lemma {:induction false} CutKeepsPair(c: Chat, turn: Id, content: seq<Block>)
    requires PairInv(c)
    ensures PairInv(AddStep(c, turn, Assistant(content, true)))
    ensures Ready(c) ==> Open(AddStep(c, turn, Assistant(content, true))).Some?
    ensures !Ready(c) ==> Open(AddStep(c, turn, Assistant(content, true))).None?
  {
    hide Scan, Asker;
    var s := Step(turn, Assistant(content, true));
    var d := AddStep(c, turn, s.body);
    ScanSnoc(c.steps, s);
    if Ready(c) {
      ReadyIsQuiet(c);
      NoCutSnoc(c.steps, s);
      assert forall id :: IsPending(d, id) <==> IsPending(c, id);
      if IsCut(s) {
        assert d.steps[..|d.steps| - 1] == c.steps;
      } else {
        assert MidInv(d, []);
      }
    } else {
      assert MidInv(d, []);
    }
  }

  lemma {:induction false} AskStartsMid(c: Chat, turn: Id, content: seq<Block>)
    requires PairInv(c) && DistinctIds(ToolUses(content))
    ensures MidInv(AddStep(c, turn, Assistant(content, false)), ToolUses(content))
    ensures Ready(c) ==> Open(AddStep(c, turn, Assistant(content, false))).Some?
    ensures !Ready(c) ==> Open(AddStep(c, turn, Assistant(content, false))).None?
  {
    hide Scan, Asker;
    var s := Step(turn, Assistant(content, false));
    var d := AddStep(c, turn, s.body);
    ScanSnoc(c.steps, s);
    assert Ids(ToolUses(content)) == ToolIds(content);
    if Ready(c) {
      ReadyIsQuiet(c);
      NoCutSnoc(c.steps, s);
      assert forall id :: IsPending(d, id) <==> IsPending(c, id);
    }
  }

  lemma {:induction false} IdsSplit(rest: seq<Block>)
    requires rest != [] && DistinctIds(rest)
    ensures DistinctIds(rest[1..]) && Ids(rest) == {rest[0].id} + Ids(rest[1..])
    ensures rest[0].id !in Ids(rest[1..])
  {
    assert rest[0] in rest;
    forall b | b in rest ensures b == rest[0] || b in rest[1..] { }
    forall b | b in rest[1..] ensures b in rest && b.id != rest[0].id {
      var i :| 0 <= i < |rest[1..]| && rest[1..][i] == b;
      assert rest[i + 1] == b;
    }
  }

  lemma {:induction false} OpenCallKeepsMid(c: Chat, id: Id, turn: Id, args: string, rest: seq<Block>)
    requires rest != [] && rest[0].ToolUse? && MidInv(c, rest) && id !in c.calls
    requires Asker(c.steps) == Some(turn)
    ensures MidInv(CreateCall(c, id, turn, rest[0].name, args, rest[0].id), rest[1..])
  {
    hide Scan, Asker;
    var d := CreateCall(c, id, turn, rest[0].name, args, rest[0].id);
    if Open(c).Some? {
      IdsSplit(rest);
      assert forall k :: IsPending(d, k) <==> IsPending(c, k) || k == id;
      forall p | p in Open(d).value - Ids(rest[1..]) ensures Waits(d, p) {
        if p == rest[0].id {
          assert IsPending(d, id) && d.calls[id].provider == p;
        } else {
          assert Waits(c, p);
          var k :| IsPending(c, k) && c.calls[k].provider == p;
          assert IsPending(d, k) && d.calls[k].provider == p;
        }
      }
    }
  }

  /** The result of a pending call lands in its place. */
  lemma {:induction false} AnswerKeepsMid(c: Chat, id: Id, body: Body, rest: seq<Block>)
    requires MidInv(c, rest) && IsResultFor(c, id, body)
    ensures MidInv(Recorded(c, id, body), rest)
    ensures Open(c).Some? <==> Open(Recorded(c, id, body)).Some?
  {
    hide Scan, Asker;
    var d, s := Recorded(c, id, body), Step(c.calls[id].turn, body);
    ScanSnoc(c.steps, s);
    AskerSnoc(c.steps, s);
    if Open(c).Some? {
      NoCutSnoc(c.steps, s);
      assert forall k :: IsPending(d, k) <==> IsPending(c, k) && k != id;
      assert forall k :: IsPending(d, k) ==> d.calls[k] == c.calls[k];
      assert Open(d).value == Open(c).value - {body.provider};
      forall p | p in Open(d).value - Ids(rest) ensures Waits(d, p) {
        assert Waits(c, p);
        var k :| IsPending(c, k) && c.calls[k].provider == p;
        assert IsPending(d, k);
      }
    }
  }

  lemma {:induction false} AnswerKeepsPair(c: Chat, id: Id, body: Body)
    requires PairInv(c) && IsResultFor(c, id, body)
    ensures PairInv(Recorded(c, id, body))
    ensures Open(c).Some? <==> Open(Recorded(c, id, body)).Some?
  {
    AnswerKeepsMid(c, id, body, []);
  }

  /** A prefix of a history without loose ends elsewhere: what an edit leaves. */
  lemma {:induction false} OpenPrefix(steps: seq<Step>, n: nat)
    requires n <= |steps| && Scan(Build(steps)).Some?
    ensures Scan(Build(steps[..n])).Some?
  {
    if Scan(Build(steps[..n])).None? {
      ScanPrefix(Build(steps[..n]), Build(steps)[n..]);
      assert Build(steps) == Build(steps[..n]) + Build(steps)[n..];
    }
  }
}
