# Raptors core, modelled in Dafny

Raptors is an actor-system crate written in Rust. In it, actors exchange typed messages through per-actor mailboxes, and workloads carry an opcode and a payload whose cost is read from a cost table. This project models the sequential core of the crate:

- **Mailboxes** (`mailbox.rs`, `mailbox_new.rs`). Each is a FIFO queue of `TypedMessage` fed from the receive half of a channel. `deal` takes the front mail off the queue and names its variant. Both are classes with a `seq` queue and a `seq` standing for the channel's pending messages.
- **Cost tables** (`workloads.rs`, `cost_model.rs`, `estimator.rs`, `estimator_builder.rs`, `tensor_types.rs`). These are maps from opcode to unit cost, each with a fixed default table. Lookup unwraps, so the opcode must be present. `update_model` upserts in place. An estimate is the unit cost times the payload.
- **Actor registry** (`system.rs`). A `System` holds an optional list of actors that `register_actor` appends to and that `on_receive` fills on a `CreateActor` command. It also has `create_actors`, plus the config and the builder.
- **Message encoders** (`command_builder.rs`, `system_command_builder.rs`, `builders.rs`, `workload_builder.rs`). These map a keyword and arguments to a message. Each `expect`, `unwrap` and `panic!` becomes an `Err` carrying the panic's message.

The message types (`TypedMessage`, `SystemCommand`, `LoadfreeMessage`, `ActorCommand`, `RaptorMessage`) are not defined in the files modelled. They are rebuilt in module `Messages` from the way the files use them. `system.rs` is written against a revision in which `CreateActor` has no fields, so module `System` declares that revision's `SystemCommand` and `TypedMessage` locally. `estimator_builder.rs` calls a one-argument `WorkloadEstimator::new(map)`, while the `estimator.rs` modelled here has a no-argument `new()` and a `new_with_model(map)`; the builder's `build` is modelled with `new_with_model`, the constructor that takes a table. The Rust `usize` is modelled as `nat`.

Module layout: `Wrappers` (Option, Result), `Messages` (protocol datatypes), `Tables` (map upsert), and one module per Rust file.

## Model

| member | source | states |
|---|---|---|
| Mailbox.Reply | raptors/src/mailbox.rs:96-100 | the reply is "Received WorkloadMsg", "Received SystemMsg" or "Received ActorMsg" exactly when the mail is of that variant |
| Mailbox.Mailbox.constructor | raptors/src/mailbox.rs:42-49 | a new mailbox has no mails and an empty channel, so `len() == 0` and `is_empty()` |
| Mailbox.Mailbox.IsEmpty | raptors/src/mailbox.rs:31-39 | `is_empty()` holds exactly when `len() == 0` |
| Mailbox.Mailbox.Len | raptors/src/mailbox.rs:36-38 | `len()` is the number of queued mails |
| Mailbox.Mailbox.Mails | raptors/src/mailbox.rs:51-53 | `mails()` is the queue itself, oldest first, so it has `len()` elements and is empty exactly when `is_empty()` |
| Mailbox.Mailbox.Send | raptors/src/mailbox.rs:63-65 | `try_send` appends to the channel when it holds fewer than 16 messages; otherwise the message is dropped; the mails are untouched |
| Mailbox.Mailbox.Receive | raptors/src/mailbox.rs:67-74 | with a message in the channel, the oldest one is moved to the back of the mails and `Ok` is returned; with none, `Err("Error!")` and nothing changes |
| Mailbox.Mailbox.Enqueue | raptors/src/mailbox.rs:113-116 | the message is appended at the back, earlier mails are unchanged, the length grows by one, and the result is `Ok` |
| Mailbox.Mailbox.Dequeue | raptors/src/mailbox.rs:140-146 | on an empty queue gives `None` and changes nothing; otherwise gives the oldest mail and leaves the rest in order |
| Mailbox.Mailbox.Deal | raptors/src/mailbox.rs:92-102 | on an empty queue gives `Err("Dequeue an empty mailbox")`; otherwise removes the front mail and gives `Ok` of its variant's reply |
| Mailbox.EnqueueTwiceDequeueOnce | raptors/src/mailbox.rs:113-146 | enqueueing a and then b, then dequeueing, gives a and leaves one mail |
| Mailbox.SendReceiveDeal | raptors/src/mailbox.rs:63-102 | a message sent to an empty mailbox is received (length 1) and then dealt with its variant's reply |
| MailboxNew.Mailbox.constructor | raptors/src/mailbox_new.rs:47-53 | `new(rx)` has no mails and takes the given receive half as its channel |
| MailboxNew.Mailbox.IsEmpty | raptors/src/mailbox_new.rs:36-44 | `is_empty()` holds exactly when `len() == 0` |
| MailboxNew.Mailbox.Len | raptors/src/mailbox_new.rs:41-43 | `len()` is the number of queued mails |
| MailboxNew.Mailbox.Mails | raptors/src/mailbox_new.rs:55-57 | `mails()` is the queue itself, oldest first, so it has `len()` elements and is empty exactly when `is_empty()` |
| MailboxNew.Mailbox.Receive | raptors/src/mailbox_new.rs:59-66 | on success the length grows by one with the channel's oldest message; with nothing pending, `Err` and nothing changes |
| MailboxNew.Mailbox.Enqueue | raptors/src/mailbox_new.rs:80-83 | appends at the back and always returns `Ok` |
| MailboxNew.Mailbox.Dequeue | raptors/src/mailbox_new.rs:85-91 | `None` on empty; otherwise the front mail, with the queue shortened by one |
| MailboxNew.Mailbox.Deal | raptors/src/mailbox_new.rs:68-78 | `Err` on empty; otherwise the variant's reply after removing the front mail |
| MailboxNew.ReceiveDeal | raptors/src/mailbox_new.rs:59-78 | a pending message is received and then dealt with its variant's reply |
| Workloads.New | raptors/src/workloads.rs:30-43 | `new(p, op)` has `payload() == p` and `op() == op` |
| Workloads.Payload | raptors/src/workloads.rs:37-39 | with `op()`, `payload()` recovers the whole workload |
| Workloads.Op | raptors/src/workloads.rs:41-43 | with `payload()`, `op()` recovers the whole workload |
| Workloads.NewInjective | raptors/src/workloads.rs:30-35 | two workloads are equal exactly when their payloads and opcodes are |
| Workloads.DefaultOpIsDummy | raptors/src/workloads.rs:91-95 | the default opcode is `DummyOp` |
| Workloads.DefaultWorkload | raptors/src/workloads.rs:23-27 | the derived default workload has payload 0 and the default opcode |
| Workloads.IntoMessage | raptors/src/workloads.rs:54-58 | the conversion wraps the workload unchanged as `WorkloadMsg` |
| Workloads.IntoMessageInjective | raptors/src/workloads.rs:54-58 | distinct workloads convert to distinct messages |
| Workloads.NewWorkloadMsg | raptors/src/workloads.rs:66-70 | `WorkloadMsg::new(w)` stores exactly `w` |
| Tables.Upserted | raptors/src/cost_model.rs:90-99 | the upserted key maps to the new value, every other key keeps its value, and the domain grows by exactly that key |
| Tables.UpsertedSize | raptors/src/cost_model.rs:91-98 | the table grows by one entry when the key was absent and keeps its size when it was present |
| Tables.UpsertedIdempotent | raptors/src/cost_model.rs:90-99 | upserting the same key and value twice equals doing it once |
| Tables.UpsertedCommute | raptors/src/cost_model.rs:90-99 | upserts of two distinct keys commute |
| CostModel.DefaultEstimateDefined | raptors/src/cost_model.rs:47-63 | the default table prices every one of the ten opcodes, each at a positive cost |
| CostModel.DefaultCosts | raptors/src/cost_model.rs:33-63 | `DefaultMockOpCode()` is `IdentityOp`; `DefaultTable()` has exactly ten entries: Identity 2, Add 11, Sub 17, Mul 71, Div 87, Conv 107, Exp 173, Reshape 37, Matmul 57, Sin 127 |
| CostModel.EstimateIn | raptors/src/cost_model.rs:85-87 | the estimate is the cost the table pairs with the tensor's opcode |
| CostModel.CostModel.Default | raptors/src/cost_model.rs:47-64 | `default()` holds the default table |
| CostModel.CostModel.New | raptors/src/cost_model.rs:70-73 | `new()` delegates to `default()` and holds the default table |
| CostModel.CostModel.SetModel | raptors/src/cost_model.rs:75-79 | `set_model(m)` stores `m` verbatim |
| CostModel.CostModel.CostModel | raptors/src/cost_model.rs:81-83 | `cost_model()` returns the stored table and changes nothing |
| CostModel.CostModel.Estimate | raptors/src/cost_model.rs:85-87 | requires the opcode to be in the table; returns the table's cost for it |
| CostModel.CostModel.UpdateModel | raptors/src/cost_model.rs:90-99 | afterwards `op` maps to the new cost, present or not before; other costs are unchanged; the domain gains exactly `op` |
| CostModel.EstimateAfterUpdate | raptors/src/cost_model.rs:85-99 | after an upsert, tensors on that opcode estimate to the new cost and all others as before |
| TensorTypes.New | raptors/src/tensor_types.rs:38-48 | `new(op).op() == op` |
| TensorTypes.Op | raptors/src/tensor_types.rs:46-48 | the tensor is determined by its opcode |
| TensorTypes.DefaultTensor | raptors/src/tensor_types.rs:30-33 | the derived default tensor is on the default opcode |
| TensorTypes.Payload | raptors/src/tensor_types.rs:42-44 | the payload is the default table's cost of the tensor's opcode, and is positive |
| TensorTypes.PayloadExamples | raptors/src/tensor_types.rs:86-91 | an `AddOp` tensor has payload 11, a `ConvOp` tensor 107 |
| TensorTypes.DefaultTensorPayload | raptors/src/tensor_types.rs:101-105 | a tensor on the default opcode is `IdentityOp` with payload 2 |
| TensorTypes.PayloadViaCostModel | raptors/src/tensor_types.rs:42-44 | `CostModel::new().estimate(self)` on a fresh cost model does not panic and equals `Payload(t)` |
| TensorTypes.IntoLoadfree | raptors/src/tensor_types.rs:61-65 | the conversion wraps the tensor unchanged as `MockTensorMsg` |
| TensorTypes.NewMockTensorMsg | raptors/src/tensor_types.rs:73-77 | `MockTensorMsg::new(t)` stores exactly `t` |
| Estimator.InitialModelTotal | raptors/src/estimator.rs:28-38 | the initial table prices all seven opcodes, each positively |
| Estimator.Estimator.New | raptors/src/estimator.rs:28-38 | `new()` holds the seven-entry initial table |
| Estimator.Estimator.NewWithModel | raptors/src/estimator.rs:40-42 | `new_with_model(m)` stores `m` verbatim |
| Estimator.Estimator.Model | raptors/src/estimator.rs:44-46 | `model()` returns the stored table |
| Estimator.Estimator.Estimate | raptors/src/estimator.rs:48-50 | requires the opcode in the table; gives unit cost times payload, 0 for payload 0 and at least the unit cost otherwise |
| Estimator.Estimator.UpdateModel | raptors/src/estimator.rs:52-61 | upsert: `op` maps to the new cost, others unchanged, domain gains exactly `op` |
| Estimator.EstimateMonotone | raptors/src/estimator.rs:48-50 | for a fixed opcode the estimate does not decrease as the payload grows |
| Estimator.EstimateAdditive | raptors/src/estimator.rs:48-50 | the estimate is linear in the payload |
| Estimator.InitialEstimates | raptors/src/estimator.rs:105-115 | on the initial table every workload is estimable; Add at 16 costs 32 and Dummy at 4 costs 16 |
| EstimatorBuilder.New | raptors/src/estimator_builder.rs:19-21 | `new()` equals `default()` |
| EstimatorBuilder.SetModel | raptors/src/estimator_builder.rs:23-31 | `set_model(m)` stores `m`, and `cost_model()` returns it |
| EstimatorBuilder.CostModel | raptors/src/estimator_builder.rs:29-31 | `cost_model()` returns the builder's whole table: the builder is determined by it |
| EstimatorBuilder.Build | raptors/src/estimator_builder.rs:33-35 | `build()` gives a fresh estimator whose table equals the builder's `cost_model()`; the one-argument `new` it calls is `Estimator::new_with_model` of the estimator revision modelled here |
| EstimatorBuilder.DefaultMatchesEstimator | raptors/src/estimator_builder.rs:38-52 | the default builder's table is the estimator's seven-entry initial table |
| EstimatorBuilder.DefaultPrices | raptors/src/estimator_builder.rs:38-52 | the default table prices Dummy 4, Add 2, Conv 8, Exp 1, Matmul 10, Sin 1, Sub 2 |
| System.NewConfig | raptors/src/system.rs:27-34 | a new config has no actor count |
| System.NumOfActors | raptors/src/system.rs:32-34 | `num_of_actors()` returns the config's whole content: the config is determined by it |
| System.NewConfigCountsNoActors | raptors/src/system.rs:27-34 | a new config's actor count, defaulted, is 0 |
| System.NatToString | raptors/src/system.rs:131 | the decimal rendering of an index is non-empty and made of digits |
| System.ParseNatToString | raptors/src/system.rs:131 | parsing the decimal rendering of `n` gives back `n` |
| System.NatToStringInjective | raptors/src/system.rs:131 | distinct indices render to distinct strings |
| System.ActorLabelInjective | raptors/src/system.rs:131 | labels `"{base} #{idx}"` of distinct indices are distinct |
| System.CreatedActorsDropsLast | raptors/src/system.rs:129-136 | for `count >= 1`, `create_actors` as written gives `count - 1` actors, which are the intended ones without the last |
| System.CreateFourYieldsThree | raptors/src/system.rs:129-136 | `create_actors(4, "raptor", 17)` gives three actors; `"raptor #4"` with id 20 is missing |
| System.IntendedActorsDistinct | raptors/src/system.rs:129-136 | the intended actors have strictly increasing ids and pairwise distinct names |
| System.Registered | raptors/src/system.rs:152-160 | the registry after a registration is the old list (or none) followed by the new actor |
| System.System.constructor | raptors/src/system.rs:117-122 | `new(name)` has that name and no actors |
| System.System.CreateActor | raptors/src/system.rs:124-126 | `create_actor(n, i)` gives an actor named `n` with id `i` |
| System.System.CreateActors | raptors/src/system.rs:129-136 | as written: requires `base_id >= 1` when the loop runs; gives `max(count-1, 0)` actors, the k-th named `"{base} #{k+1}"` with id `base_id + k`; the system is unchanged |
| System.System.CreateActorsIntended | raptors/src/system.rs:129-136 | corrected loop over `1..=count`: `count` actors with ids `base_id` to `base_id + count - 1` |
| System.System.RegisterActor | raptors/src/system.rs:152-160 | returns 0 and appends the actor at the end, keeping earlier actors in order; `None` becomes `[a]` |
| System.System.OnReceive | raptors/src/system.rs:185-200 | a `CreateActor` system message registers one actor `"raptor"` with id 17 and gives 0; any other message gives `Err("not implemented")` |
| System.CreateActorTwice | raptors/src/system.rs:168-184 | two `CreateActor` messages leave two actors, both named "raptor" |
| System.SystemBuilder.constructor | raptors/src/system.rs:57-60 | a new builder holds no config |
| System.SystemBuilder.UseConfig | raptors/src/system.rs:62-64 | `use_config` stores the config |
| System.SystemBuilder.BuildWithConfig | raptors/src/system.rs:66-70 | gives a system with the given name and no actors, whatever the config says |
| System.SystemBuilder.Build | raptors/src/system.rs:72-75 | `Err("failed to unwrap config")` without a config; otherwise a system with the name and no actors |
| CommandBuilder.Build | raptors/src/command_builder.rs:23-41 | "create-actor" succeeds exactly when both lists are present and non-empty, and then gives `CreateActor(nums[0], lits[0])`; "destroy-actor" gives `DestroyAllActors`; any other command gives `Err("Unknown builder command")` |
| CommandBuilder.BuildMsg | raptors/src/command_builder.rs:43-50 | the built command wrapped as `TypedMessage::SystemMsg`, or the same error |
| CommandBuilder.CreateActorErrors | raptors/src/command_builder.rs:31-35 | a missing number list, a missing string list, or an empty list each gives its panic's message |
| CommandBuilder.OnlyFirstArgumentsMatter | raptors/src/command_builder.rs:34-35 | lists that agree on their first elements build the same command |
| CommandBuilder.DestroyIgnoresArguments | raptors/src/command_builder.rs:38 | "destroy-actor" gives the same result whatever the arguments |
| CommandBuilder.BuildExample | raptors/src/command_builder.rs:59-70 | the source's test: `CreateActor(1, "Raptor")` |
| SystemCommandBuilder.NewSystemMsg | raptors/src/system_command_builder.rs:45-53 | `SystemMsg::new(cmd)` stores exactly `cmd` |
| SystemCommandBuilder.Build | raptors/src/system_command_builder.rs:23-41 | as `CommandBuilder.Build`, except that an unknown command gives `Err("Not implemented")` |
| SystemCommandBuilder.BuildMsg | raptors/src/system_command_builder.rs:45-53 | the built command wrapped by `SystemMsg::new`, or the same error |
| SystemCommandBuilder.AgreesWithCommandBuilder | raptors/src/system_command_builder.rs:23-41 | both builders agree on every input except the unknown-command error text |
| SystemCommandBuilder.BuildMsgExample | raptors/src/system_command_builder.rs:73-84 | the source's test of `build_msg` |
| Builders.OpOfKeyword | raptors/src/builders.rs:122-142 | exactly the seven operation keywords name an opcode |
| Builders.OpOfKeywordInjective | raptors/src/builders.rs:122-142 | distinct operation keywords name distinct opcodes |
| Builders.BackendKind | raptors/src/builders.rs:108-114 | "mock" selects backend 0, "vulkan" backend 1, and no other type string selects one |
| Builders.BuildLoadfreeMsg | raptors/src/builders.rs:100-143 | builds a message exactly for "halt-all", the seven operation keywords, ("halt", i), ("available", n) and ("spawn", "mock" or "vulkan", n); the "fail to spawn" panic happens exactly for "spawn" with any other type |
| Builders.BuildMsg | raptors/src/builders.rs:145-198 | builds a message exactly for "halt-all", the seven operation keywords, ("halt", i) and ("available", n); every other invocation matches no rule, and nothing panics |
| Builders.BuildLoadfreeMsgEncodes | raptors/src/builders.rs:101-143 | "halt-all" gives `HaltAll`; ("halt", i) gives `HaltOn(i)`; ("available", n) gives `Available(n)`; ("spawn", "mock"/"vulkan", n) gives `Spawn(0/1, n)`, and any other type gives the "fail to spawn" panic; each operation keyword gives a tensor message on its opcode |
| Builders.BuildLoadfreeMsgExamples | raptors/src/builders.rs:218-263 | the messages the source's tests expect |
| Builders.BuildLoadfreeMsgInjective | raptors/src/builders.rs:101-143 | distinct invocations that build a message build distinct messages |
| Builders.BuildMsgWrapsLoadfree | raptors/src/builders.rs:146-198 | for keyword-only and keyword-and-number invocations (other than the one-number "spawn"), `build_msg!` succeeds exactly when `build_loadfree_msg!` does, with its message wrapped in `LoadfreeMSG`; the three-argument "spawn" has no `build_msg!` rule |
| WorkloadBuilder.Build | raptors/src/workload_builder.rs:17-22 | succeeds exactly when both options are given, giving `Workload::new(p, op)`; else the payload's, then the opcode's `expect` message |
| WorkloadBuilder.BuildMany | raptors/src/workload_builder.rs:24-29 | one workload per opcode, in order, each with payload 1 |
| WorkloadBuilder.IntoMessages | raptors/src/workload_builder.rs:33-35 | each workload converted into a message, order kept |
| WorkloadBuilder.BuildManyMsg | raptors/src/workload_builder.rs:31-36 | the i-th message is `WorkloadMsg(Workload::new(1, ops[i]))`, with one message per opcode |
| WorkloadBuilder.BuildMsg | raptors/src/workload_builder.rs:38-40 | `build`'s workload as a `WorkloadMsg`, or `build`'s error |
| WorkloadBuilder.BuildManyIgnoresPayloads | raptors/src/workload_builder.rs:24-29 | the payload list does not affect the result |
| WorkloadBuilder.BuildManyAppend | raptors/src/workload_builder.rs:24-29 | building from concatenated opcode lists concatenates the results |
| WorkloadBuilder.BuildExamples | raptors/src/workload_builder.rs:50-69 | the source's tests of `build` and `build_many` |

## Left out

- Channels: the tokio `mpsc` channel is a sequence of pending messages; blocking, async wake-ups and the `Sender` clone in `sender()` / `set_sender()` (mailbox.rs:55-61) are not modelled.
- `mock_run` and every `thread::sleep`: wall-clock timing only.
- Estimator.Estimator.Estimate: `usize` overflow of cost times payload (a panic in debug builds, wrap-around in release) is not modelled; integers are unbounded.
- System.System.CreateActors: the overflow of `base_id - 1 + idx` past `usize::MAX` is not modelled; the underflow of `base_id - 1` is a precondition.
- System.System.OnReceive: the `panic!("not implemented")` for other messages is modelled as `Err("not implemented")` with the state unchanged; a `CreateActor` still returns status 0, as `Ok(0)`.
- Builders.BuildMsg: the `("spawn", n)` rule of `build_msg!` (builders.rs:153-155) builds a one-field `Spawn`, which does not exist in the two-field `SystemCommand` that `build_loadfree_msg!` uses; it is excluded by a precondition.
- Macro invocations that no rule matches are compile-time errors in Rust; they are modelled as `Err(NoRuleMatches)`.
- `build_mock_system!` and `try_init_raptors!` (builders.rs:23-74): the first depends on a `SystemConfig::new(name, level)` that is not part of this model; the second has no effect.
- The builder structs `WorkloadBuilder`, `CommandBuilder` and `SystemCmdBuilder` hold no state, so their `new()` is not modelled and their methods are plain functions.
- Profiler, logger, executor, scheduler, context, `messages_builder.rs` (unresolved merge markers), `syscmd_builder.rs`, `system_config.rs`, `system_builder.rs` and the actor demos are not part of this model.

## Findings

| source | as written | input that shows it | evidently intended | confidence | as-written member | corrected member |
|---|---|---|---|---|---|---|
| raptors/src/system.rs:131-132 | `create_actors` loops `idx` over `1..count`, producing `count - 1` actors | `create_actors(4, "raptor", 17)` gives 3 actors, not 4; `"raptor #4"` with id 20 is missing | loop over `1..=count`: `count` actors with ids `base_id` to `base_id + count - 1` | medium, not executed | System.System.CreateActors, System.CreateFourYieldsThree | System.System.CreateActorsIntended, System.IntendedActorsDistinct |
