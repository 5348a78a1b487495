/** The mock-tensor cost model (raptors/src/cost_model.rs): a table from
    `MockOpCode` to a unit cost, built from a fixed default or from a given
    map, looked up by `estimate` and upserted in place by `update_model`. */
module CostModel {
  import opened Messages
  import Tables

  /** `MockOpCode::default()`. */
  function DefaultMockOpCode(): MockOpCode {
    IdentityOp
  }

  /** The table `CostModel::default()` fills in. */
  function DefaultTable(): map<MockOpCode, nat> {
    map[
      MockOpCode.IdentityOp := 2,
      MockOpCode.AddOp := 11,
      MockOpCode.SubOp := 17,
      MockOpCode.MulOp := 71,
      MockOpCode.DivOp := 87,
      MockOpCode.ConvOp := 107,
      MockOpCode.ExpOp := 173,
      MockOpCode.ReshapeOp := 37,
      MockOpCode.MatmulOp := 57,
      MockOpCode.SinOp := 127
    ]
  }

  /** The cost `table` records for the tensor's opcode; the source unwraps the
      lookup, so the opcode must be present. */
  function EstimateIn(table: map<MockOpCode, nat>, t: MockTensor): (c: nat)
    requires t.op in table
    ensures (t.op, c) in table.Items
  {
    table[t.op]
  }

  class CostModel {
    var costModel: map<MockOpCode, nat>

    /** `CostModel::default()`. */
    constructor Default()
      ensures costModel == DefaultTable()
    {
      costModel := DefaultTable();
    }

    /** `CostModel::new()`, which delegates to `default()`. */
    constructor New()
      ensures costModel == DefaultTable()
    {
      costModel := DefaultTable();
    }

    /** `CostModel::set_model(m)` stores the given table verbatim. */
    constructor SetModel(m: map<MockOpCode, nat>)
      ensures costModel == m
    {
      costModel := m;
    }

    /** `cost_model()` hands out a copy of the table. */
    function CostModel(): (m: map<MockOpCode, nat>)
      reads this
      ensures m == costModel
    {
      costModel
    }

    /** `estimate(tensor)`: the table's cost for the tensor's opcode. */
    function Estimate(t: MockTensor): (c: nat)
      reads this
      requires t.op in costModel
      ensures c == EstimateIn(costModel, t)
    {
      costModel[t.op]
    }

    /** `update_model(op, new_cost)`: whether `op` is present (`get_mut`
        overwrites) or absent (`insert` adds it), the table afterwards maps
        `op` to `new_cost` and keeps every other entry. */
    method UpdateModel(op: MockOpCode, newCost: nat)
      modifies this
      ensures costModel == Tables.Upserted(old(costModel), op, newCost)
      ensures costModel[op] == newCost
      ensures forall k :: k in old(costModel) && k != op ==> k in costModel && costModel[k] == old(costModel)[k]
      ensures costModel.Keys == old(costModel).Keys + {op}
    {
      // The source's two arms (`get_mut` overwriting, `insert` adding) leave
      // the same table behind.
      costModel := costModel[op := newCost];
    }
  }

  /** The default table prices every opcode, so a default cost model can
      estimate any tensor without panicking. */
  lemma DefaultEstimateDefined(t: MockTensor)
    ensures t.op in DefaultTable() && EstimateIn(DefaultTable(), t) > 0
  {
    match t.op
    case IdentityOp =>
    case AddOp =>
    case SubOp =>
    case MulOp =>
    case DivOp =>
    case ConvOp =>
    case ExpOp =>
    case ReshapeOp =>
    case MatmulOp =>
    case SinOp =>
  }

  /** The default opcode is the identity, and the default table has exactly
      ten entries, priced opcode by opcode. */
  lemma DefaultCosts()
    ensures DefaultMockOpCode() == IdentityOp
    ensures |DefaultTable()| == 10
    ensures DefaultTable()[IdentityOp] == 2 && DefaultTable()[MockOpCode.AddOp] == 11
    ensures DefaultTable()[MockOpCode.SubOp] == 17 && DefaultTable()[MulOp] == 71
    ensures DefaultTable()[DivOp] == 87 && DefaultTable()[MockOpCode.ConvOp] == 107
    ensures DefaultTable()[MockOpCode.ExpOp] == 173 && DefaultTable()[ReshapeOp] == 37
    ensures DefaultTable()[MockOpCode.MatmulOp] == 57 && DefaultTable()[MockOpCode.SinOp] == 127
  {
  }

  /** An estimate after `update_model(op, c)` on a tensor of opcode `op` is `c`;
      on any other opcode it is what it was before. */
  lemma EstimateAfterUpdate(table: map<MockOpCode, nat>, op: MockOpCode, c: nat, t: MockTensor)
    requires t.op == op || t.op in table
    ensures EstimateIn(Tables.Upserted(table, op, c), t) == if t.op == op then c else EstimateIn(table, t)
  {
  }
}
