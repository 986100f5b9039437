/**
 * The accumulator capability: consume one value, answer Continue or Break.
 *
 * `SinkState` is the abstract state of one sink and `SinkStep` what one call
 * of `accumulate` does to it; `FanOut` is the tuple implementation, which
 * calls its members in order and stops at the first Break.  The classes are
 * the sinks of the library, each proved against `SinkStep`.
 */
module Sinks {
  import opened Json
  import opened Api

  /** std::ops::ControlFlow<()>. */
  datatype Flow = Continue | Break

  datatype SinkState =
    | FieldWrite(field: string, written: seq<string>)  // what has been written to the output
    | Collect(items: seq<Value>)                       // the caller's Vec, or a conversation's pieces
    | ChatRender(seenNonWs: bool, printed: seq<string>) // the flag and what went to stdout

  /** One call of `accumulate` on a sink in state `s`. */
  function SinkStep(s: SinkState, v: Value): (SinkState, Flow) {
    match s
    case FieldWrite(field, written) =>
      (match Get(v, field)
       case Some(Str(text)) => (FieldWrite(field, written + [text]), Continue)
       case _ => (s, Continue))
    case Collect(items) => (Collect(items + [v]), Continue)
    case ChatRender(seen, printed) =>
      match DecodeChatResponse(v)
      case None => (s, Break)
      case Some(response) =>
        var content := response.message.content;
        if seen || Trim(content) != "" then (ChatRender(true, printed + [content]), Continue)
        else (s, Continue)
  }

  /** Sinks never change kind (nor the field a field sink writes). */
  predicate SameKind(a: SinkState, b: SinkState) {
    match a
    case FieldWrite(f, _) => b.FieldWrite? && b.field == f
    case Collect(_) => b.Collect?
    case ChatRender(_, _) => b.ChatRender?
  }

  /** Only a chat renderer ever asks to stop, and only on a value that is not a chat response;
      its flag never goes back from true to false, and it prints exactly when the flag was
      already set or the content is not all whitespace. */
  lemma SinkStepFacts(s: SinkState, v: Value)
    ensures SameKind(s, SinkStep(s, v).0)
    ensures SinkStep(s, v).1 == Break <==> s.ChatRender? && DecodeChatResponse(v).None?
    ensures s.Collect? ==> SinkStep(s, v).0.items == s.items + [v]
    ensures s.ChatRender? && s.seenNonWs ==> SinkStep(s, v).0.seenNonWs
    ensures s.ChatRender? && DecodeChatResponse(v).Some? ==>
      var content := DecodeChatResponse(v).value.message.content;
      SinkStep(s, v).0.printed ==
        if s.seenNonWs || !AllWhitespace(content) then s.printed + [content] else s.printed
  {
    if s.ChatRender? && DecodeChatResponse(v).Some? {
      TrimEmptyIff(DecodeChatResponse(v).value.message.content);
    }
  }

  /** The tuple implementation: `$($name.accumulate(message.clone())?;)+ Continue`. */
  function FanOut(states: seq<SinkState>, v: Value): (r: (seq<SinkState>, Flow))
    ensures |r.0| == |states|
    decreases |states|
  {
    if states == [] then ([], Continue)
    else
      var (first, flow) := SinkStep(states[0], v);
      if flow == Break then ([first] + states[1..], Break)
      else
        var (rest, flow') := FanOut(states[1..], v);
        ([first] + rest, flow')
  }

  /** The position of the first member that answers Break, or the number of members. */
  function FirstBreak(states: seq<SinkState>, v: Value): (k: nat)
    ensures k <= |states|
    ensures forall j :: 0 <= j < k ==> SinkStep(states[j], v).1 == Continue
    ensures k < |states| ==> SinkStep(states[k], v).1 == Break
    decreases |states|
  {
    if states == [] || SinkStep(states[0], v).1 == Break then 0
    else 1 + FirstBreak(states[1..], v)
  }

  /** Members are called in order with the same value; the group answers Break exactly when
      some member does; the members up to and including the first that breaks have taken the
      value, and the members after it have not been called. */
  lemma {:induction false} FanOutShortCircuits(states: seq<SinkState>, v: Value)
    ensures var k := FirstBreak(states, v);
      && (FanOut(states, v).1 == Break <==> k < |states|)
      && (forall j :: 0 <= j < |states| && j <= k ==> FanOut(states, v).0[j] == SinkStep(states[j], v).0)
      && (forall j :: k < j < |states| ==> FanOut(states, v).0[j] == states[j])
    decreases |states|
  {
    if states != [] && SinkStep(states[0], v).1 == Continue {
      FanOutShortCircuits(states[1..], v);
      var r := FanOut(states, v);
      var r' := FanOut(states[1..], v);
      assert r.0 == [SinkStep(states[0], v).0] + r'.0;
      forall j | 1 <= j < |states| ensures r.0[j] == r'.0[j - 1] { }
    }
  }

  /** The states a group reaches by stepping its members in order up to the first Break
      are exactly what FanOut computes. */
  lemma FanOutFromSteps(before: seq<SinkState>, after: seq<SinkState>, v: Value, i: nat)
    requires |after| == |before| && i <= |before|
    requires forall j :: 0 <= j < i ==> SinkStep(before[j], v).1 == Continue
    requires i < |before| ==> SinkStep(before[i], v).1 == Break
    requires forall j :: 0 <= j < |before| && j <= i ==> after[j] == SinkStep(before[j], v).0
    requires forall j :: i < j < |before| ==> after[j] == before[j]
    ensures FanOut(before, v) == (after, if i < |before| then Break else Continue)
  {
    FanOutShortCircuits(before, v);
    assert FirstBreak(before, v) == i;
    assert after == FanOut(before, v).0;
  }

  /** Fan-out keeps every member's kind. */
  lemma {:induction false} FanOutKeepsKinds(states: seq<SinkState>, v: Value)
    ensures forall j :: 0 <= j < |states| ==> SameKind(states[j], FanOut(states, v).0[j])
  {
    FanOutShortCircuits(states, v);
    forall j | 0 <= j < |states| ensures SameKind(states[j], FanOut(states, v).0[j]) {
      SinkStepFacts(states[j], v);
    }
  }

  /** A collecting member behind members that never stop sees every value given to the group. */
  lemma CollectorSeesValue(states: seq<SinkState>, v: Value, k: nat)
    requires k < |states| && states[k].Collect?
    requires forall j :: 0 <= j < k ==> !states[j].ChatRender?
    ensures FanOut(states, v).0[k] == Collect(states[k].items + [v])
  {
    FanOutShortCircuits(states, v);
    forall j | 0 <= j < k ensures SinkStep(states[j], v).1 == Continue {
      SinkStepFacts(states[j], v);
    }
    assert FirstBreak(states, v) >= k;
  }

  /** FieldWriteAccumulator: writes the named string field of each value, if present. */
  class FieldWriteAccumulator {
    const field: string
    var written: seq<string>

    function State(): SinkState
      reads this
    {
      FieldWrite(field, written)
    }

    constructor (field: string)
      ensures this.field == field && written == []
    {
      this.field := field;
      written := [];
    }

    method Accumulate(message: Value) returns (flow: Flow)
      modifies this
      ensures (State(), flow) == SinkStep(old(State()), message)
      ensures flow == Continue
      ensures (match Get(message, field)
               case Some(Str(text)) => written == old(written) + [text]
               case _ => written == old(written))
    {
      var member := Get(message, field);
      if member.Some? && member.value.Str? {
        written := written + [member.value.s];
      }
      flow := Continue;
    }
  }

  /** VecAccumulator: pushes every value onto the caller's list. */
  class VecAccumulator {
    var output: seq<Value>

    function State(): SinkState
      reads this
    {
      Collect(output)
    }

    constructor (output: seq<Value>)
      ensures this.output == output
    {
      this.output := output;
    }

    method Accumulate(message: Value) returns (flow: Flow)
      modifies this
      ensures (State(), flow) == SinkStep(old(State()), message)
      ensures output == old(output) + [message] && flow == Continue
    {
      output := output + [message];
      flow := Continue;
    }
  }

  /** ChatAccumulator: renders chat deltas, holding back whitespace until real content arrives. */
  class ChatAccumulator {
    var seenNonWs: bool
    var printed: seq<string>

    function State(): SinkState
      reads this
    {
      ChatRender(seenNonWs, printed)
    }

    /** `ChatAccumulator::default()`. */
    constructor ()
      ensures !seenNonWs && printed == []
    {
      seenNonWs := false;
      printed := [];
    }

    method Accumulate(msg: Value) returns (flow: Flow)
      modifies this
      ensures (State(), flow) == SinkStep(old(State()), msg)
      ensures flow == Break <==> DecodeChatResponse(msg).None?
      ensures old(seenNonWs) ==> seenNonWs
      ensures DecodeChatResponse(msg).Some? ==>
        var content := DecodeChatResponse(msg).value.message.content;
        printed == if old(seenNonWs) || !AllWhitespace(content) then old(printed) + [content] else old(printed)
    {
      SinkStepFacts(State(), msg);
      var response := DecodeChatResponse(msg);
      if response.None? {
        return Break;
      }
      var content := response.value.message.content;
      if seenNonWs || Trim(content) != "" {
        printed := printed + [content];
        seenNonWs := true;
      }
      flow := Continue;
    }
  }
}
