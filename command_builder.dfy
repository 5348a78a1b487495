/** The command builder (raptors/src/command_builder.rs): turns a command
    keyword and optional argument lists into a system command, or into a
    mailbox message carrying one. The source panics on a missing argument
    list, an empty one, or an unknown keyword; here those are `Err` values
    carrying the panic message. */
module CommandBuilder {
  import opened Wrappers
  import opened Messages

  /** The message `Option::unwrap` panics with on `None`. */
  const UnwrapNone: string := "called `Option::unwrap()` on a `None` value"

  /** `CommandBuilder::build(cmd, numeric_args, literal_args)`. */
  function Build(cmd: string, numericArgs: Option<seq<nat>>, literalArgs: Option<seq<string>>): (r: Result<SystemCommand, string>)
    ensures r.Ok? <==>
      cmd == "destroy-actor" ||
      (cmd == "create-actor" && numericArgs.Some? && literalArgs.Some? && |numericArgs.value| > 0 && |literalArgs.value| > 0)
    ensures cmd == "create-actor" && r.Ok? ==> r.value == CreateActor(numericArgs.value[0], literalArgs.value[0])
    ensures cmd == "destroy-actor" ==> r == Ok(DestroyAllActors)
    ensures cmd != "create-actor" && cmd != "destroy-actor" ==> r == Err("Unknown builder command")
  {
    match cmd
    case "create-actor" =>
      if numericArgs.None? then Err("No numbers provided")
      else if literalArgs.None? then Err("No string provided")
      else if |numericArgs.value| == 0 then Err(UnwrapNone)
      else if |literalArgs.value| == 0 then Err(UnwrapNone)
      else Ok(CreateActor(numericArgs.value[0], literalArgs.value[0]))
    case "destroy-actor" => Ok(DestroyAllActors)
    case _ => Err("Unknown builder command")
  }

  /** `build_msg(cmd, numeric_args, literal_args)`: the built command wrapped
      as a system message; fails exactly when `build` does, with its error. */
  function BuildMsg(cmd: string, numericArgs: Option<seq<nat>>, literalArgs: Option<seq<string>>): (r: Result<TypedMessage, string>)
    ensures r.Ok? <==> Build(cmd, numericArgs, literalArgs).Ok?
    ensures r.Ok? ==> r.value == TypedMessage.SystemMsg(Build(cmd, numericArgs, literalArgs).value)
    ensures r.Err? ==> r.error == Build(cmd, numericArgs, literalArgs).error
  {
    match Build(cmd, numericArgs, literalArgs)
    case Ok(c) => Ok(TypedMessage.SystemMsg(c))
    case Err(e) => Err(e)
  }

  /** The error paths of "create-actor", in the order the source checks them:
      the numbers must be given, then the strings, then each list must have a
      first element. */
  lemma CreateActorErrors(nums: Option<seq<nat>>, lits: Option<seq<string>>)
    ensures nums.None? ==> Build("create-actor", nums, lits) == Err("No numbers provided")
    ensures nums.Some? && lits.None? ==> Build("create-actor", nums, lits) == Err("No string provided")
    ensures nums.Some? && lits.Some? && (|nums.value| == 0 || |lits.value| == 0) ==>
      Build("create-actor", nums, lits) == Err(UnwrapNone)
  {
  }

  /** Only the first element of each list is read: lists that agree on their
      first elements build the same command. */
  lemma OnlyFirstArgumentsMatter(cmd: string, n1: seq<nat>, l1: seq<string>, n2: seq<nat>, l2: seq<string>)
    requires |n1| > 0 && |l1| > 0 && |n2| > 0 && |l2| > 0
    requires n1[0] == n2[0] && l1[0] == l2[0]
    ensures Build(cmd, Some(n1), Some(l1)) == Build(cmd, Some(n2), Some(l2))
  {
  }

  /** "destroy-actor" ignores its arguments altogether. */
  lemma DestroyIgnoresArguments(n1: Option<seq<nat>>, l1: Option<seq<string>>, n2: Option<seq<nat>>, l2: Option<seq<string>>)
    ensures Build("destroy-actor", n1, l1) == Build("destroy-actor", n2, l2) == Ok(DestroyAllActors)
  {
  }

  /** As in the source's test: "create-actor" with `[1]` and `["Raptor"]`. */
  lemma BuildExample()
    ensures Build("create-actor", Some([1]), Some(["Raptor"])) == Ok(CreateActor(1, "Raptor"))
    ensures BuildMsg("create-actor", Some([1]), Some(["Raptor"])) == Ok(TypedMessage.SystemMsg(CreateActor(1, "Raptor")))
  {
  }
}
