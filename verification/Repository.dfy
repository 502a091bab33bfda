/** What the statements of `ChatRepository` do to the rows of one session. */
module Repository {
  import opened Wallet
  import opened Records

  function AddStep(c: Chat, turn: Id, body: Body): Chat {
    c.(steps := c.steps + [Step(turn, body)])
  }

  function CreateCall(c: Chat, id: Id, turn: Id, tool: string, args: string, provider: string): Chat {
    c.(calls := c.calls[id := Call(turn, tool, args, provider, Pending, None)])
  }

  /** UPDATE ... WHERE id = :id AND status = 'pending' RETURNING id. */
  function CompleteCall(c: Chat, id: Id, status: Status, result: Option<string>): (Chat, bool) {
    if id in c.calls && c.calls[id].status.Pending?
    then (c.(calls := c.calls[id := c.calls[id].(status := status, result := result)]), true)
    else (c, false)
  }

  /** Position of the first step from `from` on that satisfies the filter. */
  function FirstIndex(steps: seq<Step>, from: nat, p: Step -> bool): (r: Option<nat>)
    requires from <= |steps|
    ensures r.Some? ==> from <= r.value < |steps| && p(steps[r.value])
    ensures r.Some? ==> forall i :: from <= i < r.value ==> !p(steps[i])
    ensures r.None? ==> forall i :: from <= i < |steps| ==> !p(steps[i])
    decreases |steps| - from
  {
    if from == |steps| then None
    else if p(steps[from]) then Some(from)
    else FirstIndex(steps, from + 1, p)
  }

  function LastIndex(steps: seq<Step>, p: Step -> bool): (r: Option<nat>)
    ensures r.Some? ==> r.value < |steps| && p(steps[r.value])
    ensures r.Some? ==> forall i :: r.value < i < |steps| ==> !p(steps[i])
    ensures r.None? ==> forall i :: 0 <= i < |steps| ==> !p(steps[i])
  {
    if steps == [] then None
    else if p(steps[|steps| - 1]) then Some(|steps| - 1)
    else LastIndex(steps[..|steps| - 1], p)
  }

  function IsUser(turn: Id): Step -> bool { (s: Step) => s.turn == turn && s.body.User? }
  function IsAssistant(turn: Id): Step -> bool { (s: Step) => s.turn == turn && s.body.Assistant? }
  function IsResult(turn: Id, call: Id): Step -> bool {
    (s: Step) => s.turn == turn && s.body.Tool? && s.body.call == call
  }

  function Turns(steps: seq<Step>): set<Id> { set s <- steps :: s.turn }

  /** Delete the user step of a turn and everything after it, and the tool calls of every turn that
      loses a step. `None` when the session has no such user step. */
  function Truncate(c: Chat, turn: Id): Option<Chat> {
    match FirstIndex(c.steps, 0, IsUser(turn))
    case None => None
    case Some(anchor) => Some(CutAt(c, anchor))
  }

  function CutAt(c: Chat, anchor: nat): Chat
    requires anchor <= |c.steps|
  {
    var gone := Turns(c.steps[anchor..]);
    Chat(c.steps[..anchor], map id | id in c.calls && c.calls[id].turn !in gone :: c.calls[id])
  }

  /** The first assistant step of the turn after the result of `call`, or its latest assistant step
      when that result is missing. */
  function NextStepAfter(c: Chat, turn: Id, call: Id): (r: Option<Step>)
    ensures r.Some? ==> r.value.body.Assistant? && r.value.turn == turn && r.value in c.steps
  {
    match FirstIndex(c.steps, 0, IsResult(turn, call))
    case Some(anchor) =>
      (match FirstIndex(c.steps, anchor + 1, IsAssistant(turn))
       case Some(i) => Some(c.steps[i])
       case None => None)
    case None =>
      match LastIndex(c.steps, IsAssistant(turn))
      case Some(i) => Some(c.steps[i])
      case None => None
  }

  /** How many tool steps carry the id of a call. */
  function ResultCount(steps: seq<Step>, call: Id): nat {
    if steps == [] then 0
    else
      var last := steps[|steps| - 1].body;
      ResultCount(steps[..|steps| - 1], call) + if last.Tool? && last.call == call then 1 else 0
  }

  lemma {:induction false} ResultCountSnoc(steps: seq<Step>, step: Step, call: Id)
    ensures ResultCount(steps + [step], call) ==
            ResultCount(steps, call) + if step.body.Tool? && step.body.call == call then 1 else 0
  {
    assert (steps + [step])[..|steps|] == steps;
  }

  lemma {:induction false} ResultCountConcat(a: seq<Step>, b: seq<Step>, call: Id)
    ensures ResultCount(a + b, call) == ResultCount(a, call) + ResultCount(b, call)
  {
    if b == [] {
      assert a + b == a;
    } else {
      ResultCountConcat(a, b[..|b| - 1], call);
      assert (a + b)[..|a + b| - 1] == a + b[..|b| - 1];
    }
  }

  lemma {:induction false} ResultCountZero(steps: seq<Step>, call: Id)
    ensures ResultCount(steps, call) == 0 <==>
            forall i :: 0 <= i < |steps| ==> !(steps[i].body.Tool? && steps[i].body.call == call)
  {
    if steps != [] {
      var n := |steps| - 1;
      ResultCountZero(steps[..n], call);
      assert forall i :: 0 <= i < n ==> steps[..n][i] == steps[i];
    }
  }

  /** Some call of a turn that has steps on both sides of the anchor. */
  ghost predicate Straddles(c: Chat, anchor: nat)
    requires anchor <= |c.steps|
  {
    exists id :: id in c.calls && c.calls[id].turn in Turns(c.steps[..anchor])
                               && c.calls[id].turn in Turns(c.steps[anchor..])
  }

  /** Turns follow one another: no turn goes on once another user step has been stored. */
  ghost predicate Sequential(steps: seq<Step>) {
    forall i, j, k :: 0 <= i < j <= k < |steps| && steps[j].body.User? ==> steps[i].turn != steps[k].turn
  }

  ghost predicate CallsHaveSteps(c: Chat) {
    forall id :: id in c.calls ==> c.calls[id].turn in Turns(c.steps)
  }

  /** The tool calls of the turns that have a step among `steps`. */
  function CallsOf(c: Chat, steps: seq<Step>): map<Id, Call> {
    map id | id in c.calls && c.calls[id].turn in Turns(steps) :: c.calls[id]
  }

  /** Cutting the history keeps exactly the tool calls of the surviving turns, precisely when no
      call's turn has steps on both sides of the cut. */
  lemma {:induction false} CutExact(c: Chat, anchor: nat)
    requires anchor <= |c.steps| && CallsHaveSteps(c)
    ensures CutAt(c, anchor).calls == CallsOf(c, c.steps[..anchor]) <==> !Straddles(c, anchor)
  {
    var before, after := c.steps[..anchor], c.steps[anchor..];
    assert c.steps == before + after;
    assert Turns(c.steps) == Turns(before) + Turns(after);
    if Straddles(c, anchor) {
      var id :| id in c.calls && c.calls[id].turn in Turns(before) && c.calls[id].turn in Turns(after);
      assert id in CallsOf(c, before) && id !in CutAt(c, anchor).calls;
    }
  }

  /** When turns do not interleave, no call straddles a user step. */
  lemma {:induction false} SequentialNeverStraddles(c: Chat, anchor: nat)
    requires Sequential(c.steps) && anchor < |c.steps| && c.steps[anchor].body.User?
    ensures !Straddles(c, anchor)
  {
    forall i, k | 0 <= i < anchor && 0 <= k < |c.steps| - anchor
      ensures c.steps[..anchor][i].turn != c.steps[anchor..][k].turn {
      assert c.steps[..anchor][i] == c.steps[i] && c.steps[anchor..][k] == c.steps[anchor + k];
    }
  }

  /** An edit is refused exactly when the session has no user step of that turn; otherwise the steps
      before its first user step remain, and on sequential turns so do exactly their tool calls. */
  lemma {:induction false} TruncateKeepsPrefix(c: Chat, turn: Id)
    requires CallsHaveSteps(c)
    ensures Truncate(c, turn).None? <==> forall i :: 0 <= i < |c.steps| ==> !IsUser(turn)(c.steps[i])
    ensures forall anchor: nat {:trigger IsUser(turn)(c.steps[anchor])} ::
              && anchor < |c.steps| && IsUser(turn)(c.steps[anchor])
              && (forall i :: 0 <= i < anchor ==> !IsUser(turn)(c.steps[i]))
              ==> && Truncate(c, turn).Some?
                  && Truncate(c, turn).value.steps == c.steps[..anchor]
                  && (Sequential(c.steps) ==>
                        Truncate(c, turn).value.calls == CallsOf(c, c.steps[..anchor]))
  {
    var found := FirstIndex(c.steps, 0, IsUser(turn));
    if found.Some? {
      CutExact(c, found.value);
      if Sequential(c.steps) { SequentialNeverStraddles(c, found.value); }
    }
    forall anchor: nat | anchor < |c.steps| && IsUser(turn)(c.steps[anchor])
                         && (forall i :: 0 <= i < anchor ==> !IsUser(turn)(c.steps[i]))
      ensures found == Some(anchor)
    {
    }
  }
}
