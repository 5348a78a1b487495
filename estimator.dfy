/** The workload estimator (raptors/src/estimator.rs): a table from `OpCode`
    to a unit cost; the estimate of a workload is its opcode's unit cost times
    its payload. */
module Estimator {
  import opened Messages
  import Tables

  /** The seven-entry table `Estimator::new()` starts from. */
  function InitialModel(): map<OpCode, nat> {
    map[
      DummyOp := 4,
      OpCode.AddOp := 2,
      OpCode.ConvOp := 8,
      OpCode.ExpOp := 1,
      OpCode.MatmulOp := 10,
      OpCode.SinOp := 1,
      OpCode.SubOp := 2
    ]
  }

  /** The initial table prices every opcode, each at a positive cost. */
  lemma InitialModelTotal(op: OpCode)
    ensures op in InitialModel() && InitialModel()[op] > 0
  {
    match op
    case DummyOp =>
    case AddOp =>
    case ConvOp =>
    case ExpOp =>
    case MatmulOp =>
    case SinOp =>
    case SubOp =>
  }

  class Estimator {
    var model: map<OpCode, nat>

    /** `Estimator::new()`. */
    constructor New()
      ensures model == InitialModel()
    {
      model := InitialModel();
    }

    /** `Estimator::new_with_model(m)` stores the given table verbatim. */
    constructor NewWithModel(m: map<OpCode, nat>)
      ensures model == m
    {
      model := m;
    }

    /** `model()` hands out a copy of the table. */
    function Model(): (m: map<OpCode, nat>)
      reads this
      ensures m == model
    {
      model
    }

    /** `estimate(workload)`: unit cost of the workload's opcode times its
        payload. The source unwraps the lookup, so the opcode must be present. */
    function Estimate(w: Workload): (c: nat)
      reads this
      requires w.op in model
      ensures w.payload == 0 ==> c == 0
      ensures w.payload > 0 ==> c >= model[w.op]
      ensures c == model[w.op] * w.payload
    {
      model[w.op] * w.payload
    }

    /** `update_model(op, new_cost)`: overwrite when present, insert when absent. */
    method UpdateModel(op: OpCode, newCost: nat)
      modifies this
      ensures model == Tables.Upserted(old(model), op, newCost)
      ensures model[op] == newCost
      ensures forall k :: k in old(model) && k != op ==> k in model && model[k] == old(model)[k]
      ensures model.Keys == old(model).Keys + {op}
    {
      // The source's two arms (`get_mut` overwriting, `insert` adding) leave
      // the same table behind.
      model := model[op := newCost];
    }
  }

  /** For a fixed opcode the estimate never decreases as the payload grows. */
  lemma EstimateMonotone(e: Estimator, w1: Workload, w2: Workload)
    requires w1.op == w2.op && w1.op in e.model
    requires w1.payload <= w2.payload
    ensures e.Estimate(w1) <= e.Estimate(w2)
  {
    var c := e.model[w1.op];
    var d: nat := w2.payload - w1.payload;
    assert c * w2.payload == c * w1.payload + c * d;
  }

  /** Estimates are linear in the payload: the estimate of a combined payload
      is the sum of the estimates of its parts. */
  lemma EstimateAdditive(e: Estimator, w1: Workload, w2: Workload)
    requires w1.op == w2.op && w1.op in e.model
    ensures e.Estimate(Workload(w1.payload + w2.payload, w1.op)) == e.Estimate(w1) + e.Estimate(w2)
  {
    var c := e.model[w1.op];
    assert c * (w1.payload + w2.payload) == c * w1.payload + c * w2.payload;
  }

  /** Every workload is estimable on the initial table, and the estimates
      agree with the source's tests: Add at 16 costs 32, Dummy at 4 costs 16. */
  lemma InitialEstimates(e: Estimator, w: Workload)
    requires e.model == InitialModel()
    ensures w.op in e.model && e.Estimate(w) >= w.payload
    ensures e.Estimate(Workload(16, OpCode.AddOp)) == 32
    ensures e.Estimate(Workload(4, DummyOp)) == 16
  {
    InitialModelTotal(w.op);
  }
}
