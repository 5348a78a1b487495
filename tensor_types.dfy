/** Mock tensors (raptors/src/tensor_types.rs): a tensor is just an opcode,
    its payload is the cost a fresh default cost model assigns to that opcode,
    and it converts into a loadfree message. */
module TensorTypes {
  import opened Messages
  import CostModel

  /** `MockTensor::new(op)`. */
  function New(op: MockOpCode): (t: MockTensor)
    ensures Op(t) == op
  {
    MockTensor(op)
  }

  /** `MockTensor::op()`. */
  function Op(t: MockTensor): (o: MockOpCode)
    ensures MockTensor(o) == t
  {
    t.op
  }

  /** `MockTensor::payload()`: `CostModel::new().estimate(self)`. Every
      opcode is priced by the default table, so this never panics and is
      always positive. */
  function Payload(t: MockTensor): (p: nat)
    ensures p > 0
    ensures Op(t) in CostModel.DefaultTable() && p == CostModel.DefaultTable()[Op(t)]
  {
    CostModel.DefaultEstimateDefined(t);
    CostModel.EstimateIn(CostModel.DefaultTable(), t)
  }

  /** The derived `MockTensor::default()`: a tensor on the default opcode. */
  function DefaultTensor(): (t: MockTensor)
    ensures Op(t) == CostModel.DefaultMockOpCode()
  {
    MockTensor(CostModel.DefaultMockOpCode())
  }

  /** `Into<LoadfreeMessage<MockTensor>>`: wraps the tensor unchanged. */
  function IntoLoadfree(t: MockTensor): (m: LoadfreeMessage)
    ensures m.MockTensorMsg? && m.tensor == t
  {
    LoadfreeMessage.MockTensorMsg(t)
  }

  /** `MockTensorMsg`, the struct that wraps one tensor. */
  datatype MockTensorMsg = MockTensorMsg(workload: MockTensor)

  /** `MockTensorMsg::new(t)` stores exactly `t`. */
  function NewMockTensorMsg(t: MockTensor): (m: MockTensorMsg)
    ensures m.workload == t
  {
    MockTensorMsg.MockTensorMsg(t)
  }

  /** An `AddOp` tensor carries payload 11, a `ConvOp` tensor 107. */
  lemma PayloadExamples()
    ensures Payload(New(MockOpCode.AddOp)) == 11
    ensures Payload(New(MockOpCode.ConvOp)) == 107
  {
    CostModel.DefaultCosts();
  }

  /** A default tensor runs the identity operator and carries payload 2. */
  lemma DefaultTensorPayload()
    ensures Op(DefaultTensor()) == IdentityOp && Payload(DefaultTensor()) == 2
  {
    CostModel.DefaultCosts();
  }

  /** `payload()` as the source computes it: a fresh `CostModel::new()` asked
      to estimate the tensor. It never panics, and it agrees with `Payload`. */
  method PayloadViaCostModel(t: MockTensor) returns (c: nat)
    ensures c == Payload(t)
  {
    var cm := new CostModel.CostModel.New();
    CostModel.DefaultEstimateDefined(t);
    c := cm.Estimate(t);
  }
}
