/** The message protocol of the runtime: the closed set of tagged variants
    that travel through mailboxes, and the payload types they carry. These are
    pure data; the operations on them live in the modules named after the
    source files that define them. */
module Messages {

  /** Operator codes of a `Workload`. */
  datatype OpCode = DummyOp | AddOp | ConvOp | ExpOp | MatmulOp | SinOp | SubOp

  /** A simulated compute task: how long it runs and which operator it is. */
  datatype Workload = Workload(payload: nat, op: OpCode)

  /** Operator codes of a `MockTensor`, keyed into the cost model. */
  datatype MockOpCode =
    | IdentityOp | AddOp | SubOp | MulOp | DivOp
    | ConvOp | ExpOp | ReshapeOp | MatmulOp | SinOp

  /** A mock tensor payload; its cost is looked up by its opcode. */
  datatype MockTensor = MockTensor(op: MockOpCode)

  /** Control commands addressed to the system. `CreateActor(num, name)` and
      `DestroyAllActors` are the commands the command builders produce;
      `HaltAll`, `HaltOn(index)` and `Spawn(kind, num)` those the message
      macros produce (`kind` 0 is the mock backend, 1 the Vulkan backend). */
  datatype SystemCommand =
    | CreateActor(num: nat, name: string)
    | DestroyAllActors
    | DummySysCmd
    | HaltAll
    | HaltOn(index: nat)
    | Spawn(kind: nat, num: nat)

  /** Notices an actor sends: `Available(index)` announces that the actor at
      `index` is idle. */
  datatype ActorCommand = Available(index: nat)

  /** What a mailbox holds. */
  datatype TypedMessage =
    | WorkloadMsg(workload: Workload)
    | SystemMsg(cmd: SystemCommand)
    | ActorMsg

  /** Messages whose payload is a tensor rather than a sized workload. */
  datatype LoadfreeMessage =
    | SystemMsg(cmd: SystemCommand)
    | ActorMsg(actorCmd: ActorCommand)
    | MockTensorMsg(tensor: MockTensor)

  /** The outermost message envelope. */
  datatype RaptorMessage = LoadfreeMSG(msg: LoadfreeMessage)
}
