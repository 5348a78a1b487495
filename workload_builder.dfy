/** The workload builder (raptors/src/workload_builder.rs): builds one
    workload from optional arguments, or one unit-payload workload per
    opcode of a list, and wraps them as mailbox messages. */
module WorkloadBuilder {
  import opened Wrappers
  import opened Messages
  import Workloads

  /** `build(payload, op)`: both must be given; the source's `expect` panics
      on the payload first, then on the opcode. */
  function Build(payload: Option<nat>, op: Option<OpCode>): (r: Result<Workload, string>)
    ensures r.Ok? <==> payload.Some? && op.Some?
    ensures r.Ok? ==> r.value == Workloads.New(payload.value, op.value)
    ensures payload.None? ==> r == Err("No valid payload value")
    ensures payload.Some? && op.None? ==> r == Err("No valid operation")
  {
    if payload.None? then Err("No valid payload value")
    else if op.None? then Err("No valid operation")
    else Ok(Workloads.New(payload.value, op.value))
  }

  /** `build_many(payload_list, op_list)`: one workload of payload 1 per
      opcode, in order; the payload list is never read. */
  function BuildMany(payloadList: seq<nat>, opList: seq<OpCode>): (r: seq<Workload>)
    ensures |r| == |opList|
    ensures forall i :: 0 <= i < |opList| ==> r[i] == Workloads.New(1, opList[i])
  {
    if opList == [] then []
    else [Workloads.New(1, opList[0])] + BuildMany(payloadList, opList[1..])
  }

  /** Each workload converted into a mailbox message, in order. */
  function IntoMessages(ws: seq<Workload>): (r: seq<TypedMessage>)
    ensures |r| == |ws|
    ensures forall i :: 0 <= i < |ws| ==> r[i] == Workloads.IntoMessage(ws[i])
  {
    if ws == [] then []
    else [Workloads.IntoMessage(ws[0])] + IntoMessages(ws[1..])
  }

  /** `build_many_msg(payload, op)`: `build_many` with every workload wrapped
      as a `WorkloadMsg`, order kept. */
  function BuildManyMsg(payload: seq<nat>, op: seq<OpCode>): (r: seq<TypedMessage>)
    ensures |r| == |op|
    ensures forall i :: 0 <= i < |op| ==> r[i] == TypedMessage.WorkloadMsg(Workloads.New(1, op[i]))
  {
    IntoMessages(BuildMany(payload, op))
  }

  /** `build_msg(payload, op)`: the built workload as a mailbox message;
      fails exactly when `build` does, with its error. */
  function BuildMsg(payload: Option<nat>, op: Option<OpCode>): (r: Result<TypedMessage, string>)
    ensures r.Ok? <==> Build(payload, op).Ok?
    ensures r.Ok? ==> r.value == TypedMessage.WorkloadMsg(Build(payload, op).value)
    ensures r.Err? ==> r.error == Build(payload, op).error
  {
    match Build(payload, op)
    case Ok(w) => Ok(Workloads.IntoMessage(w))
    case Err(e) => Err(e)
  }

  /** `build_many` ignores the payload list: any two give the same result. */
  lemma {:induction false} BuildManyIgnoresPayloads(ps1: seq<nat>, ps2: seq<nat>, ops: seq<OpCode>)
    ensures BuildMany(ps1, ops) == BuildMany(ps2, ops)
  {
    if ops != [] {
      BuildManyIgnoresPayloads(ps1, ps2, ops[1..]);
    }
  }

  /** `build_many` distributes over concatenation of the opcode lists. */
  lemma {:induction false} BuildManyAppend(ps: seq<nat>, ops1: seq<OpCode>, ops2: seq<OpCode>)
    ensures BuildMany(ps, ops1 + ops2) == BuildMany(ps, ops1) + BuildMany(ps, ops2)
  {
    if ops1 != [] {
      assert (ops1 + ops2)[1..] == ops1[1..] + ops2;
      BuildManyAppend(ps, ops1[1..], ops2);
    }
  }

  /** As in the source's tests. */
  lemma BuildExamples()
    ensures Build(Some(2), Some(DummyOp)) == Ok(Workload(2, DummyOp))
    ensures BuildMany([1, 1], [DummyOp, DummyOp]) == [Workload(1, DummyOp), Workload(1, DummyOp)]
    ensures BuildMsg(Some(2), Some(OpCode.AddOp)) == Ok(TypedMessage.WorkloadMsg(Workload(2, OpCode.AddOp)))
  {
    assert BuildMany([1, 1], [DummyOp, DummyOp])[0] == Workload(1, DummyOp);
    assert BuildMany([1, 1], [DummyOp, DummyOp])[1] == Workload(1, DummyOp);
  }
}
