/** When does a provider accept a history: every tool_use is answered exactly once, in place. */
module Pairing {
  import opened Wallet
  import opened Records

  /** Position of the last message that is not a tool result, or -1. */
  function LastSpeaker(ms: seq<Message>): (i: int)
    ensures -1 <= i < |ms|
    ensures i >= 0 ==> !ms[i].ToolMessage?
    ensures forall k :: i < k < |ms| ==> ms[k].ToolMessage?
  {
    if ms == [] then -1
    else if !ms[|ms| - 1].ToolMessage? then |ms| - 1
    else LastSpeaker(ms[..|ms| - 1])
  }

  /** The user or assistant message right before the block of tool results holding position `j`. */
  function Owner(ms: seq<Message>, j: int): (i: int)
    requires 0 <= j <= |ms|
    ensures -1 <= i < j
  {
    LastSpeaker(ms[..j])
  }

  /** Result `j` answers tool_use `id` of message `i`: only tool results stand between the two. */
  predicate Answers(ms: seq<Message>, i: int, id: string, j: int) {
    0 <= j < |ms| && ms[j].ToolMessage? && ms[j].provider == id && Owner(ms, j) == i
  }

  predicate Asks(ms: seq<Message>, i: int, id: string) {
    0 <= i < |ms| && ms[i].AssistantMessage? && id in ToolIds(ms[i].blocks)
  }

  /** Every result answers a tool_use of the message that owns it. */
  ghost predicate NoOrphan(ms: seq<Message>) {
    forall j :: 0 <= j < |ms| && ms[j].ToolMessage? ==> Asks(ms, Owner(ms, j), ms[j].provider)
  }

  ghost predicate NoRepeat(ms: seq<Message>) {
    forall i, id, j, k :: Answers(ms, i, id, j) && Answers(ms, i, id, k) ==> j == k
  }

  ghost predicate Answered(ms: seq<Message>, i: int, id: string) {
    exists j :: Answers(ms, i, id, j)
  }

  /** Every tool_use of every assistant message is answered by exactly one tool result with its
      provider id before the next user or assistant message, and no other result exists. */
  ghost predicate Paired(ms: seq<Message>) {
    && NoOrphan(ms)
    && NoRepeat(ms)
    && forall i, id :: Asks(ms, i, id) ==> Answered(ms, i, id)
  }

  /** One pass over the history: the ids still waiting for a result, or `None` once it is beyond
      repair (a speaker interrupted an unanswered tool_use, or a result answers nothing). */
  function Scan(ms: seq<Message>): Option<set<string>> {
    if ms == [] then Some({})
    else
      match (Scan(ms[..|ms| - 1]), ms[|ms| - 1])
      case (None, _) => None
      case (Some(open), UserMessage(_)) => if open == {} then Some({}) else None
      case (Some(open), AssistantMessage(blocks)) => if open == {} then Some(ToolIds(blocks)) else None
      case (Some(open), ToolMessage(_, id, _, _, _)) => if id in open then Some(open - {id}) else None
  }

  /** A defect no later message can repair. */
  ghost predicate Broken(ms: seq<Message>) {
    || !NoOrphan(ms)
    || !NoRepeat(ms)
    || exists i, id :: Asks(ms, i, id) && i < LastSpeaker(ms) && !Answered(ms, i, id)
  }

  ghost predicate Waiting(ms: seq<Message>, open: set<string>) {
    && NoOrphan(ms)
    && NoRepeat(ms)
    && (open != {} ==> LastSpeaker(ms) >= 0)
    && (forall id :: id in open ==> Asks(ms, LastSpeaker(ms), id))
    && (forall i, id :: Asks(ms, i, id) ==> (Answered(ms, i, id) <==> !(i == LastSpeaker(ms) && id in open)))
  }

  lemma {:induction false} OwnerSnoc(ms: seq<Message>, m: Message, j: int)
    requires 0 <= j <= |ms|
    ensures Owner(ms + [m], j) == Owner(ms, j)
    ensures Owner(ms + [m], |ms|) == LastSpeaker(ms)
  {
    assert (ms + [m])[..j] == ms[..j];
    assert (ms + [m])[..|ms|] == ms;
  }

  lemma {:induction false} AnswersSnoc(ms: seq<Message>, m: Message, i: int, id: string, j: int)
    ensures j < |ms| ==> (Answers(ms + [m], i, id, j) <==> Answers(ms, i, id, j))
    ensures j == |ms| ==> (Answers(ms + [m], i, id, j) <==>
                             m.ToolMessage? && m.provider == id && i == LastSpeaker(ms))
  {
    if 0 <= j <= |ms| { OwnerSnoc(ms, m, j); }
  }

  lemma {:induction false} SpeakerSnoc(ms: seq<Message>, m: Message)
    ensures LastSpeaker(ms + [m]) == if m.ToolMessage? then LastSpeaker(ms) else |ms|
  {
    assert (ms + [m])[..|ms|] == ms;
  }

  lemma {:induction false} AnsweredSnoc(ms: seq<Message>, m: Message, i: int, id: string)
    ensures Answered(ms + [m], i, id) <==>
            Answered(ms, i, id) || (m.ToolMessage? && m.provider == id && i == LastSpeaker(ms))
  {
    if Answered(ms, i, id) {
      var j :| Answers(ms, i, id, j);
      AnswersSnoc(ms, m, i, id, j);
    }
    if Answered(ms + [m], i, id) {
      var j :| Answers(ms + [m], i, id, j);
      AnswersSnoc(ms, m, i, id, j);
    }
    AnswersSnoc(ms, m, i, id, |ms|);
  }

  lemma {:induction false} ShapeSnoc(ms: seq<Message>, m: Message)
    ensures NoOrphan(ms + [m]) <==>
            NoOrphan(ms) && (m.ToolMessage? ==> Asks(ms, LastSpeaker(ms), m.provider))
    ensures NoRepeat(ms + [m]) <==>
            NoRepeat(ms) && (m.ToolMessage? ==> !Answered(ms, LastSpeaker(ms), m.provider))
  {
    hide LastSpeaker;
    var ns := ms + [m];
    forall j | 0 <= j <= |ms| ensures Owner(ns, j) == if j < |ms| then Owner(ms, j) else LastSpeaker(ms) {
      OwnerSnoc(ms, m, j);
    }
    forall i, id, j ensures j < |ms| ==> (Answers(ns, i, id, j) <==> Answers(ms, i, id, j)) {
      AnswersSnoc(ms, m, i, id, j);
    }
    if NoOrphan(ns) {
      forall j | 0 <= j < |ms| && ms[j].ToolMessage? ensures Asks(ms, Owner(ms, j), ms[j].provider) {
        assert ns[j] == ms[j] && Asks(ns, Owner(ns, j), ns[j].provider);
      }
      if m.ToolMessage? { assert ns[|ms|] == m && Asks(ns, Owner(ns, |ms|), m.provider); }
    }
    if m.ToolMessage? && Answered(ms, LastSpeaker(ms), m.provider) {
      var i := LastSpeaker(ms);
      var j :| Answers(ms, i, m.provider, j);
      AnswersSnoc(ms, m, i, m.provider, |ms|);
      assert Answers(ns, i, m.provider, j) && Answers(ns, i, m.provider, |ms|);
    }
    if NoRepeat(ms) && (m.ToolMessage? ==> !Answered(ms, LastSpeaker(ms), m.provider)) {
      forall i, id, j, k | Answers(ns, i, id, j) && Answers(ns, i, id, k) ensures j == k {
        AnswersSnoc(ms, m, i, id, j);
        AnswersSnoc(ms, m, i, id, k);
      }
    }
  }

  lemma {:induction false} BrokenStays(ms: seq<Message>, m: Message)
    requires Broken(ms)
    ensures Broken(ms + [m])
  {
    ShapeSnoc(ms, m);
    SpeakerSnoc(ms, m);
    if NoOrphan(ms) && NoRepeat(ms) {
      var i, id :| Asks(ms, i, id) && i < LastSpeaker(ms) && !Answered(ms, i, id);
      AnsweredSnoc(ms, m, i, id);
      assert Asks(ms + [m], i, id);
    }
  }

  lemma {:induction false} WaitingSnoc(ms: seq<Message>, m: Message, open: set<string>)
    requires Waiting(ms, open)
    ensures match m {
              case ToolMessage(_, id, _, _, _) =>
                if id in open then Waiting(ms + [m], open - {id}) else Broken(ms + [m])
              case AssistantMessage(blocks) =>
                if open == {} then Waiting(ms + [m], ToolIds(blocks)) else Broken(ms + [m])
              case UserMessage(_) =>
                if open == {} then Waiting(ms + [m], {}) else Broken(ms + [m])
            }
  {
    var ns := ms + [m];
    ShapeSnoc(ms, m);
    SpeakerSnoc(ms, m);
    forall i, id ensures Answered(ns, i, id) <==>
        Answered(ms, i, id) || (m.ToolMessage? && m.provider == id && i == LastSpeaker(ms)) {
      AnsweredSnoc(ms, m, i, id);
    }
    forall i, id ensures Asks(ns, i, id) <==>
        Asks(ms, i, id) || (i == |ms| && m.AssistantMessage? && id in ToolIds(m.blocks)) {
    }
    forall id, j ensures !Answers(ns, |ms|, id, j) {
      AnswersSnoc(ms, m, |ms|, id, j);
    }
    if !m.ToolMessage? && open != {} {
      var id :| id in open;
      assert Asks(ns, LastSpeaker(ms), id) && !Answered(ns, LastSpeaker(ms), id);
    }
    if m.ToolMessage? && m.provider !in open && Asks(ms, LastSpeaker(ms), m.provider) {
      assert Answered(ms, LastSpeaker(ms), m.provider);
    }
  }

  lemma {:induction false} ScanMeaning(ms: seq<Message>)
    ensures match Scan(ms) { case Some(open) => Waiting(ms, open) case None => Broken(ms) }
  {
    if ms != [] {
      var n := |ms| - 1;
      ScanMeaning(ms[..n]);
      assert ms == ms[..n] + [ms[n]];
      match Scan(ms[..n]) {
        case Some(open) => WaitingSnoc(ms[..n], ms[n], open);
        case None => BrokenStays(ms[..n], ms[n]);
      }
    }
  }

  /** The one-pass check decides pairing. */
  lemma {:induction false} ScanDecidesPaired(ms: seq<Message>)
    ensures Paired(ms) <==> Scan(ms) == Some({})
  {
    ScanMeaning(ms);
    match Scan(ms)
    case None =>
      if NoOrphan(ms) && NoRepeat(ms) {
        var i, id :| Asks(ms, i, id) && i < LastSpeaker(ms) && !Answered(ms, i, id);
      }
    case Some(open) =>
      if id :| id in open {
        assert Asks(ms, LastSpeaker(ms), id);
      } else {
        assert open == {};
      }
  }

  lemma {:induction false} ScanSnoc(steps: seq<Step>, step: Step)
    ensures Build(steps + [step]) == Build(steps) + [ToMessage(step)]
    ensures Scan(Build(steps + [step])) ==
            match (Scan(Build(steps)), step.body) {
              case (None, _) => None
              case (Some(open), User(_, _)) => if open == {} then Some({}) else None
              case (Some(open), Assistant(content, _)) => if open == {} then Some(ToolIds(content)) else None
              case (Some(open), Tool(_, id, _, _, _)) => if id in open then Some(open - {id}) else None
            }
  {
    var ms := Build(steps + [step]);
    assert ms == Build(steps) + [ToMessage(step)];
    assert ms[..|ms| - 1] == Build(steps);
  }

  /** Nothing appended to a broken history mends it. */
  lemma {:induction false} ScanPrefix(ms: seq<Message>, more: seq<Message>)
    requires Scan(ms) == None
    ensures Scan(ms + more) == None
  {
    if more == [] {
      assert ms + more == ms;
    } else {
      ScanPrefix(ms, more[..|more| - 1]);
      assert (ms + more)[..|ms + more| - 1] == ms + more[..|more| - 1];
    }
  }
}
