/**
 * The tuple implementation of the accumulator capability over the sink
 * objects: a group is a sequence of members, each a reference to one sink,
 * and delivering a value to the group calls the members in their declared
 * order until one answers Break.
 */
module Members {
  import opened Json
  import opened Sinks
  import opened Conversations

  datatype Member =
    | FieldMember(field: FieldWriteAccumulator)
    | VecMember(vec: VecAccumulator)
    | ChatMember(chat: ChatAccumulator)
    | ConversationMember(conversation: ConversationAccumulator)

  function ObjectOf(m: Member): object {
    match m
    case FieldMember(a) => a
    case VecMember(a) => a
    case ChatMember(a) => a
    case ConversationMember(a) => a
  }

  /** The objects a group may change. */
  function Objects(group: seq<Member>): set<object> {
    set i | 0 <= i < |group| :: ObjectOf(group[i])
  }

  /** A tuple holds each sink once (each element is its own `&mut` borrow). */
  predicate Distinct(group: seq<Member>) {
    forall i, j :: 0 <= i < j < |group| ==> ObjectOf(group[i]) != ObjectOf(group[j])
  }

  function StateOf(m: Member): SinkState
    reads ObjectOf(m)
  {
    match m
    case FieldMember(a) => a.State()
    case VecMember(a) => a.State()
    case ChatMember(a) => a.State()
    case ConversationMember(a) => a.State()
  }

  function States(group: seq<Member>): (r: seq<SinkState>)
    reads Objects(group)
    ensures |r| == |group| && forall i :: 0 <= i < |group| ==> r[i] == StateOf(group[i])
  {
    seq(|group|, i reads Objects(group) requires 0 <= i < |group| => StateOf(group[i]))
  }

  /** One member's `accumulate`. */
  method Deliver(m: Member, v: Value) returns (flow: Flow)
    modifies ObjectOf(m)
    ensures (StateOf(m), flow) == SinkStep(old(StateOf(m)), v)
  {
    match m
    case FieldMember(a) => flow := a.Accumulate(v);
    case VecMember(a) => flow := a.Accumulate(v);
    case ChatMember(a) => flow := a.Accumulate(v);
    case ConversationMember(a) => flow := a.Accumulate(v);
  }

  /** The `accumulate` of the member at position `i`: only its state changes. */
  method DeliverAt(group: seq<Member>, i: nat, v: Value) returns (flow: Flow)
    requires Distinct(group) && i < |group|
    modifies ObjectOf(group[i])
    ensures var step := SinkStep(old(States(group))[i], v);
      States(group) == old(States(group))[i := step.0] && flow == step.1
  {
    flow := Deliver(group[i], v);
  }

  /** The tuple's `accumulate`: each member in turn, returning at the first Break. */
  method AccumulateAll(group: seq<Member>, v: Value) returns (flow: Flow)
    requires Distinct(group)
    modifies Objects(group)
    ensures (States(group), flow) == FanOut(old(States(group)), v)
  {
    ghost var before := States(group);
    var i := 0;
    while i < |group|
      invariant 0 <= i <= |group|
      invariant |States(group)| == |before|
      invariant forall j :: 0 <= j < i ==> SinkStep(before[j], v).1 == Continue
      invariant forall j :: 0 <= j < i ==> States(group)[j] == SinkStep(before[j], v).0
      invariant forall j :: i <= j < |group| ==> States(group)[j] == before[j]
    {
      var f := DeliverAt(group, i, v);
      if f == Break {
        FanOutFromSteps(before, States(group), v, i);
        return Break;
      }
      i := i + 1;
    }
    FanOutFromSteps(before, States(group), v, i);
    flow := Continue;
  }
}
