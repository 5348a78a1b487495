/** The estimator builder (raptors/src/estimator_builder.rs): holds a cost
    table, by default the estimator's seven-entry one, and builds an estimator
    from it. */
module EstimatorBuilder {
  import opened Messages
  import Estimator

  /** `WorkloadEstimatorBuilder`: a cost table waiting to become an estimator. */
  datatype WorkloadEstimatorBuilder = WorkloadEstimatorBuilder(costModel: map<OpCode, nat>)

  /** `WorkloadEstimatorBuilder::default()`. */
  function Default(): WorkloadEstimatorBuilder {
    WorkloadEstimatorBuilder(map[
      DummyOp := 4,
      OpCode.AddOp := 2,
      OpCode.ConvOp := 8,
      OpCode.ExpOp := 1,
      OpCode.MatmulOp := 10,
      OpCode.SinOp := 1,
      OpCode.SubOp := 2
    ])
  }

  /** `WorkloadEstimatorBuilder::new()`, which delegates to `default()`. */
  function New(): (b: WorkloadEstimatorBuilder)
    ensures b == Default()
  {
    Default()
  }

  /** `set_model(m)`: a builder holding exactly `m`. */
  function SetModel(m: map<OpCode, nat>): (b: WorkloadEstimatorBuilder)
    ensures CostModel(b) == m
  {
    WorkloadEstimatorBuilder(m)
  }

  /** `cost_model()`: a copy of the builder's table. */
  function CostModel(b: WorkloadEstimatorBuilder): (m: map<OpCode, nat>)
    ensures WorkloadEstimatorBuilder(m) == b
  {
    b.costModel
  }

  /** `build()`: an estimator over the builder's table, the same estimator
      one gets by handing that table to the estimator directly. */
  method Build(b: WorkloadEstimatorBuilder) returns (e: Estimator.Estimator)
    ensures fresh(e)
    ensures e.Model() == CostModel(b)
  {
    e := new Estimator.Estimator.NewWithModel(CostModel(b));
  }

  /** The default builder's table is the one `Estimator::new()` starts from,
      so building from a default builder yields the default estimator. */
  lemma DefaultMatchesEstimator()
    ensures CostModel(Default()) == Estimator.InitialModel()
    ensures CostModel(New()) == Estimator.InitialModel()
  {
  }

  /** The default builder's prices: Dummy 4 and Add 2, and so on. */
  lemma DefaultPrices()
    ensures CostModel(Default())[DummyOp] == 4 && CostModel(Default())[OpCode.AddOp] == 2
    ensures CostModel(Default())[OpCode.ConvOp] == 8 && CostModel(Default())[OpCode.ExpOp] == 1
    ensures CostModel(Default())[OpCode.MatmulOp] == 10 && CostModel(Default())[OpCode.SinOp] == 1
    ensures CostModel(Default())[OpCode.SubOp] == 2
  {
  }
}
