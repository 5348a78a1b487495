/** The system command builder (raptors/src/system_command_builder.rs): the
    same keyword-to-command translation as the command builder, with a
    different panic message for unknown keywords, and `build_msg` wrapping
    the command in a `SystemMsg` struct. */
module SystemCommandBuilder {
  import opened Wrappers
  import opened Messages
  import CommandBuilder

  /** `SystemMsg`, the struct that wraps one system command. */
  datatype SystemMsg = SystemMsg(cmd: SystemCommand)

  /** `SystemMsg::new(cmd)` stores exactly `cmd`. */
  function NewSystemMsg(cmd: SystemCommand): (m: SystemMsg)
    ensures m.cmd == cmd
  {
    SystemMsg.SystemMsg(cmd)
  }

  /** `SystemCmdBuilder::build(cmd, numeric_args, literal_args)`. */
  function Build(cmd: string, numericArgs: Option<seq<nat>>, literalArgs: Option<seq<string>>): (r: Result<SystemCommand, string>)
    ensures r.Ok? <==>
      cmd == "destroy-actor" ||
      (cmd == "create-actor" && numericArgs.Some? && literalArgs.Some? && |numericArgs.value| > 0 && |literalArgs.value| > 0)
    ensures cmd == "create-actor" && r.Ok? ==> r.value == CreateActor(numericArgs.value[0], literalArgs.value[0])
    ensures cmd == "destroy-actor" ==> r == Ok(DestroyAllActors)
    ensures cmd != "create-actor" && cmd != "destroy-actor" ==> r == Err("Not implemented")
  {
    match cmd
    case "create-actor" =>
      if numericArgs.None? then Err("No numbers provided")
      else if literalArgs.None? then Err("No string provided")
      else if |numericArgs.value| == 0 then Err(CommandBuilder.UnwrapNone)
      else if |literalArgs.value| == 0 then Err(CommandBuilder.UnwrapNone)
      else Ok(CreateActor(numericArgs.value[0], literalArgs.value[0]))
    case "destroy-actor" => Ok(DestroyAllActors)
    case _ => Err("Not implemented")
  }

  /** `build_msg(cmd, numeric_args, literal_args)`: `SystemMsg::new` of the
      built command; fails exactly when `build` does, with its error. */
  function BuildMsg(cmd: string, numericArgs: Option<seq<nat>>, literalArgs: Option<seq<string>>): (r: Result<SystemMsg, string>)
    ensures r.Ok? <==> Build(cmd, numericArgs, literalArgs).Ok?
    ensures r.Ok? ==> r.value == NewSystemMsg(Build(cmd, numericArgs, literalArgs).value)
    ensures r.Err? ==> r.error == Build(cmd, numericArgs, literalArgs).error
  {
    match Build(cmd, numericArgs, literalArgs)
    case Ok(c) => Ok(NewSystemMsg(c))
    case Err(e) => Err(e)
  }

  /** The two builder revisions agree on every command they accept and on
      every error except the one for an unknown keyword. */
  lemma AgreesWithCommandBuilder(cmd: string, numericArgs: Option<seq<nat>>, literalArgs: Option<seq<string>>)
    ensures Build(cmd, numericArgs, literalArgs).Ok? <==> CommandBuilder.Build(cmd, numericArgs, literalArgs).Ok?
    ensures cmd == "create-actor" || cmd == "destroy-actor" ==>
      Build(cmd, numericArgs, literalArgs) == CommandBuilder.Build(cmd, numericArgs, literalArgs)
  {
  }

  /** As in the source's test: "create-actor" with `[1]` and `["Raptor"]`. */
  lemma BuildMsgExample()
    ensures BuildMsg("create-actor", Some([1]), Some(["Raptor"])) == Ok(NewSystemMsg(CreateActor(1, "Raptor")))
  {
  }
}
