/** Workloads (raptors/src/workloads.rs): construction, the two getters, the
    default opcode and workload, and the conversion into a mailbox message. */
module Workloads {
  import opened Messages

  /** `Workload::new(payload, op)`. */
  function New(payload: nat, op: OpCode): (w: Workload)
    ensures Payload(w) == payload && Op(w) == op
  {
    Workload(payload, op)
  }

  /** `Workload::payload()`. */
  function Payload(w: Workload): (p: nat)
    ensures Workload(p, w.op) == w
  {
    w.payload
  }

  /** `Workload::op()`. */
  function Op(w: Workload): (o: OpCode)
    ensures Workload(w.payload, o) == w
  {
    w.op
  }

  /** `OpCode::default()`. */
  function DefaultOpCode(): OpCode {
    DummyOp
  }

  /** The derived `Workload::default()`: a zero payload and the default opcode. */
  function DefaultWorkload(): (w: Workload)
    ensures Payload(w) == 0 && Op(w) == DefaultOpCode()
  {
    Workload(0, DefaultOpCode())
  }

  /** `Into<TypedMessage> for Workload`. */
  function IntoMessage(w: Workload): (m: TypedMessage)
    ensures m.WorkloadMsg? && m.workload == w
  {
    TypedMessage.WorkloadMsg(w)
  }

  /** The getters give back what `new` was given, so `new` loses nothing:
      two workloads built from different arguments differ. */
  lemma NewInjective(p1: nat, op1: OpCode, p2: nat, op2: OpCode)
    ensures New(p1, op1) == New(p2, op2) <==> p1 == p2 && op1 == op2
  {
    if New(p1, op1) == New(p2, op2) {
      assert Payload(New(p1, op1)) == Payload(New(p2, op2));
      assert Op(New(p1, op1)) == Op(New(p2, op2));
    }
  }

  /** A workload built on the default opcode runs the dummy operator. */
  lemma DefaultOpIsDummy(payload: nat)
    ensures Op(New(payload, DefaultOpCode())) == DummyOp
  {
  }

  /** Converting to a message keeps the workload unchanged, so distinct
      workloads become distinct messages. */
  lemma IntoMessageInjective(w1: Workload, w2: Workload)
    ensures IntoMessage(w1) == IntoMessage(w2) <==> w1 == w2
  {
  }

  /** `WorkloadMsg`, the struct that wraps one workload. */
  datatype WorkloadMsg = WorkloadMsg(workload: Workload)

  /** `WorkloadMsg::new(workload)` stores exactly that workload. */
  function NewWorkloadMsg(w: Workload): (m: WorkloadMsg)
    ensures m.workload == w
  {
    WorkloadMsg.WorkloadMsg(w)
  }
}
