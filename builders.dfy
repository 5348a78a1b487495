/** The message macros (raptors/src/builders.rs): `build_loadfree_msg!` and
    `build_msg!` turn a keyword and its arguments into a message. A macro
    invocation is modelled by the shape of its argument list; an invocation
    that no macro rule matches, which Rust rejects at compile time, yields
    `NoRuleMatches`, and the run-time `panic!` of an unknown backend type
    yields `Panicked`. */
module Builders {
  import opened Wrappers
  import opened Messages
  import TensorTypes

  /** The argument list of a macro invocation: a keyword alone, a keyword
      with one number, or a keyword with a type string and a number. */
  datatype MacroArgs =
    | Keyword(keyword: string)
    | KeywordNum(keyword: string, num: nat)
    | KeywordTypeNum(keyword: string, typeName: string, num: nat)

  datatype BuildError = NoRuleMatches | Panicked(message: string)

  /** The opcode an operation keyword stands for. */
  function OpOfKeyword(keyword: string): (r: Option<MockOpCode>)
    ensures r.Some? <==> keyword in {"identity-op", "add-op", "sub-op", "exp-op", "sin-op", "Matmul-op", "Conv-op"}
  {
    match keyword
    case "identity-op" => Some(IdentityOp)
    case "add-op" => Some(MockOpCode.AddOp)
    case "sub-op" => Some(MockOpCode.SubOp)
    case "exp-op" => Some(MockOpCode.ExpOp)
    case "sin-op" => Some(MockOpCode.SinOp)
    case "Matmul-op" => Some(MockOpCode.MatmulOp)
    case "Conv-op" => Some(MockOpCode.ConvOp)
    case _ => None
  }

  /** Distinct operation keywords stand for distinct opcodes. */
  lemma OpOfKeywordInjective(k1: string, k2: string)
    requires OpOfKeyword(k1).Some? && OpOfKeyword(k1) == OpOfKeyword(k2)
    ensures k1 == k2
  {
  }

  /** The backend index `spawn` uses for a type string: 0 for "mock", 1 for
      "vulkan". */
  function BackendKind(typeName: string): (r: Option<nat>)
    ensures r.Some? <==> typeName == "mock" || typeName == "vulkan"
    ensures typeName == "mock" ==> r == Some(0)
    ensures typeName == "vulkan" ==> r == Some(1)
  {
    match typeName
    case "mock" => Some(0)
    case "vulkan" => Some(1)
    case _ => None
  }

  /** `build_loadfree_msg!(args)`. It builds a message exactly for the
      invocations its rules accept with a known backend type; an unknown type
      for "spawn" is the only panic. */
  function BuildLoadfreeMsg(args: MacroArgs): (r: Result<LoadfreeMessage, BuildError>)
    ensures r.Ok? <==>
      || args == Keyword("halt-all")
      || (args.Keyword? && OpOfKeyword(args.keyword).Some?)
      || (args.KeywordNum? && (args.keyword == "halt" || args.keyword == "available"))
      || (args.KeywordTypeNum? && args.keyword == "spawn" && BackendKind(args.typeName).Some?)
    ensures r == Err(Panicked("fail to spawn")) <==>
      args.KeywordTypeNum? && args.keyword == "spawn" && BackendKind(args.typeName).None?
  {
    match args
    case Keyword("halt-all") => Ok(LoadfreeMessage.SystemMsg(HaltAll))
    case Keyword(kw) =>
      if OpOfKeyword(kw).Some? then Ok(TensorTypes.IntoLoadfree(TensorTypes.New(OpOfKeyword(kw).value)))
      else Err(NoRuleMatches)
    case KeywordNum("halt", index) => Ok(LoadfreeMessage.SystemMsg(HaltOn(index)))
    case KeywordNum("available", num) => Ok(LoadfreeMessage.ActorMsg(Available(num)))
    case KeywordNum(_, _) => Err(NoRuleMatches)
    case KeywordTypeNum("spawn", typeName, num) =>
      if BackendKind(typeName).Some? then Ok(LoadfreeMessage.SystemMsg(Spawn(BackendKind(typeName).value, num)))
      else Err(Panicked("fail to spawn"))
    case KeywordTypeNum(_, _, _) => Err(NoRuleMatches)
  }

  /** `build_msg!(args)`, apart from its one-number "spawn" rule. It has no
      three-argument rule, so it never panics; it builds a message exactly for
      "halt-all", the operation keywords, "halt" and "available". */
  function BuildMsg(args: MacroArgs): (r: Result<RaptorMessage, BuildError>)
    requires !(args.KeywordNum? && args.keyword == "spawn")
    ensures r.Ok? <==>
      || args == Keyword("halt-all")
      || (args.Keyword? && OpOfKeyword(args.keyword).Some?)
      || (args.KeywordNum? && (args.keyword == "halt" || args.keyword == "available"))
    ensures r.Err? ==> r.error == NoRuleMatches
  {
    match args
    case Keyword("halt-all") => Ok(LoadfreeMSG(LoadfreeMessage.SystemMsg(HaltAll)))
    case Keyword(kw) =>
      if OpOfKeyword(kw).Some? then Ok(LoadfreeMSG(LoadfreeMessage.MockTensorMsg(TensorTypes.New(OpOfKeyword(kw).value))))
      else Err(NoRuleMatches)
    case KeywordNum("halt", index) => Ok(LoadfreeMSG(LoadfreeMessage.SystemMsg(HaltOn(index))))
    case KeywordNum("available", num) => Ok(LoadfreeMSG(LoadfreeMessage.ActorMsg(Available(num))))
    case KeywordNum(_, _) => Err(NoRuleMatches)
    case KeywordTypeNum(_, _, _) => Err(NoRuleMatches)
  }

  /** What each keyword encodes to: "halt-all" to `HaltAll`, ("halt", i) to
      `HaltOn(i)`, ("available", n) to `Available(n)`, ("spawn", "mock" or
      "vulkan", n) to `Spawn(0 or 1, n)`, and each operation keyword to a
      tensor message on its opcode. */
  lemma BuildLoadfreeMsgEncodes(args: MacroArgs)
    ensures args == Keyword("halt-all") ==> BuildLoadfreeMsg(args) == Ok(LoadfreeMessage.SystemMsg(HaltAll))
    ensures args.KeywordNum? && args.keyword == "halt" ==>
      BuildLoadfreeMsg(args) == Ok(LoadfreeMessage.SystemMsg(HaltOn(args.num)))
    ensures args.KeywordNum? && args.keyword == "available" ==>
      BuildLoadfreeMsg(args) == Ok(LoadfreeMessage.ActorMsg(Available(args.num)))
    ensures args.KeywordTypeNum? && args.keyword == "spawn" && args.typeName == "mock" ==>
      BuildLoadfreeMsg(args) == Ok(LoadfreeMessage.SystemMsg(Spawn(0, args.num)))
    ensures args.KeywordTypeNum? && args.keyword == "spawn" && args.typeName == "vulkan" ==>
      BuildLoadfreeMsg(args) == Ok(LoadfreeMessage.SystemMsg(Spawn(1, args.num)))
    ensures args.KeywordTypeNum? && args.keyword == "spawn" && args.typeName != "mock" && args.typeName != "vulkan" ==>
      BuildLoadfreeMsg(args) == Err(Panicked("fail to spawn"))
    ensures args.Keyword? && OpOfKeyword(args.keyword).Some? ==>
      BuildLoadfreeMsg(args) == Ok(LoadfreeMessage.MockTensorMsg(MockTensor(OpOfKeyword(args.keyword).value)))
  {
  }

  /** The examples the source's tests check. */
  lemma BuildLoadfreeMsgExamples()
    ensures BuildLoadfreeMsg(Keyword("halt-all")) == Ok(LoadfreeMessage.SystemMsg(HaltAll))
    ensures BuildLoadfreeMsg(KeywordTypeNum("spawn", "mock", 3)) == Ok(LoadfreeMessage.SystemMsg(Spawn(0, 3)))
    ensures BuildLoadfreeMsg(KeywordTypeNum("spawn", "vulkan", 3)) == Ok(LoadfreeMessage.SystemMsg(Spawn(1, 3)))
    ensures BuildLoadfreeMsg(KeywordNum("halt", 3)) == Ok(LoadfreeMessage.SystemMsg(HaltOn(3)))
    ensures BuildLoadfreeMsg(Keyword("add-op")) == Ok(LoadfreeMessage.MockTensorMsg(MockTensor(MockOpCode.AddOp)))
    ensures BuildLoadfreeMsg(Keyword("exp-op")) == Ok(LoadfreeMessage.MockTensorMsg(MockTensor(MockOpCode.ExpOp)))
    ensures BuildLoadfreeMsg(KeywordNum("available", 0)) == Ok(LoadfreeMessage.ActorMsg(Available(0)))
  {
  }

  /** The encoding loses nothing: two invocations that both build a message
      and build the same one had the same keyword and arguments. */
  lemma BuildLoadfreeMsgInjective(a1: MacroArgs, a2: MacroArgs)
    requires BuildLoadfreeMsg(a1).Ok? && BuildLoadfreeMsg(a1) == BuildLoadfreeMsg(a2)
    ensures a1 == a2
  {
    match a1
    case Keyword(kw1) =>
      if kw1 != "halt-all" {
        OpOfKeywordInjective(kw1, a2.keyword);
      }
    case KeywordNum(_, _) =>
    case KeywordTypeNum(_, t1, _) =>
  }

  /** `build_msg!` wraps in `LoadfreeMSG` the message `build_loadfree_msg!`
      builds for the same keyword-only or keyword-and-number invocation. */
  lemma BuildMsgWrapsLoadfree(args: MacroArgs)
    requires !args.KeywordTypeNum?
    requires !(args.KeywordNum? && args.keyword == "spawn")
    ensures BuildMsg(args).Ok? <==> BuildLoadfreeMsg(args).Ok?
    ensures BuildMsg(args).Ok? ==> BuildMsg(args).value == LoadfreeMSG(BuildLoadfreeMsg(args).value)
  {
  }
}
