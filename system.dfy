/** The actor system (raptors/src/system.rs): a named registry of actors
    that `register_actor` appends to, the builder and config that create it,
    and `on_receive`, which registers an actor on a `CreateActor` command. */
module System {
  import opened Wrappers
  import Messages

  /** An actor as the registry sees it: a name and an id. */
  datatype Actor = Actor(name: string, id: nat)

  /** `SystemConfig`: how many actors the system should have, if said. */
  datatype SystemConfig = SystemConfig(numOfActors: Option<nat>)

  /** `SystemConfig::new()`, the derived default: no actor count. */
  function NewConfig(): (c: SystemConfig)
    ensures NumOfActors(c) == None
  {
    SystemConfig(None)
  }

  /** `SystemConfig::num_of_actors()`. */
  function NumOfActors(c: SystemConfig): (n: Option<nat>)
    ensures SystemConfig(n) == c
  {
    c.numOfActors
  }

  /** A new config's actor count, defaulted with `unwrap_or_default`, is 0. */
  lemma NewConfigCountsNoActors()
    ensures NumOfActors(NewConfig()).GetOr(0) == 0
  {
  }

  /** The system command type this file is written against, in which
      `CreateActor` carries no fields. */
  datatype SystemCommand = CreateActor | DestroyAllActors

  /** The mailbox message type of the same revision. */
  datatype TypedMessage =
    | WorkloadMsg(workload: Messages.Workload)
    | SystemMsg(cmd: SystemCommand)
    | ActorMsg

  /** The decimal digit for `d`. */
  function DigitChar(d: nat): (c: char)
    requires d < 10
    ensures '0' <= c <= '9'
  {
    (48 + d) as char
  }

  /** `n` in decimal, as `format!("{}", n)` writes it. */
  function NatToString(n: nat): (s: string)
    ensures |s| > 0
    ensures forall i :: 0 <= i < |s| ==> '0' <= s[i] <= '9'
    decreases n
  {
    if n < 10 then [DigitChar(n)] else NatToString(n / 10) + [DigitChar(n % 10)]
  }

  /** The number a string of decimal digits denotes. */
  function ParseNat(s: string): nat
    requires forall i :: 0 <= i < |s| ==> '0' <= s[i] <= '9'
  {
    if s == [] then 0 else ParseNat(s[..|s| - 1]) * 10 + (s[|s| - 1] as int - 48)
  }

  /** Reading back a rendered number gives the number. */
  lemma {:induction false} ParseNatToString(n: nat)
    ensures ParseNat(NatToString(n)) == n
    decreases n
  {
    var s := NatToString(n);
    if n >= 10 {
      ParseNatToString(n / 10);
      assert s[..|s| - 1] == NatToString(n / 10);
    } else {
      assert s[..|s| - 1] == [];
    }
  }

  /** Distinct numbers render as distinct strings. */
  lemma NatToStringInjective(m: nat, n: nat)
    requires NatToString(m) == NatToString(n)
    ensures m == n
  {
    ParseNatToString(m);
    ParseNatToString(n);
  }

  /** The name `create_actors` gives its `idx`-th actor: `"{base_name} #{idx}"`. */
  function ActorLabel(baseName: string, idx: nat): string {
    baseName + " #" + NatToString(idx)
  }

  /** Different indices give different names. */
  lemma ActorLabelInjective(baseName: string, i: nat, j: nat)
    requires ActorLabel(baseName, i) == ActorLabel(baseName, j)
    ensures i == j
  {
    var prefix := baseName + " #";
    assert NatToString(i) == ActorLabel(baseName, i)[|prefix|..];
    assert NatToString(j) == ActorLabel(baseName, j)[|prefix|..];
    NatToStringInjective(i, j);
  }

  /** The actors `create_actors(count, base_name, base_id)` returns as
      written: the loop runs `idx` over `1..count` and gives id
      `base_id - 1 + idx`, which underflows when `base_id` is 0 and the loop
      runs at all. */
  function CreatedActors(count: nat, baseName: string, baseId: nat): seq<Actor>
    requires count >= 2 ==> baseId >= 1
  {
    if count <= 1 then []
    else seq(count - 1, k requires 0 <= k < count - 1 => Actor(ActorLabel(baseName, k + 1), baseId - 1 + (k + 1)))
  }

  /** The actors `create_actors` evidently means to return: `count` of them,
      named `#1` to `#count`, with ids `base_id` to `base_id + count - 1`. */
  function IntendedActors(count: nat, baseName: string, baseId: nat): seq<Actor> {
    seq(count, k requires 0 <= k < count => Actor(ActorLabel(baseName, k + 1), baseId + k))
  }

  /** The as-written result has one actor fewer than asked for, and is
      exactly the intended result without its last actor. */
  lemma CreatedActorsDropsLast(count: nat, baseName: string, baseId: nat)
    requires count >= 1
    requires count >= 2 ==> baseId >= 1
    ensures |CreatedActors(count, baseName, baseId)| == count - 1
    ensures CreatedActors(count, baseName, baseId) == IntendedActors(count, baseName, baseId)[..count - 1]
  {
  }

  /** `create_actors(4, "raptor", 17)`, as in the source's test, yields three
      actors, not four: the last one, `"raptor #4"` with id 20, is missing. */
  lemma CreateFourYieldsThree()
    ensures |CreatedActors(4, "raptor", 17)| == 3
    ensures |IntendedActors(4, "raptor", 17)| == 4
    ensures IntendedActors(4, "raptor", 17)[3] == Actor(ActorLabel("raptor", 4), 20)
    ensures Actor(ActorLabel("raptor", 4), 20) !in CreatedActors(4, "raptor", 17)
  {
    var created := CreatedActors(4, "raptor", 17);
    forall k | 0 <= k < |created|
      ensures created[k] != Actor(ActorLabel("raptor", 4), 20)
    {
      assert created[k].id == 17 + k;
    }
  }

  /** The intended actors carry pairwise distinct names and ids. */
  lemma IntendedActorsDistinct(count: nat, baseName: string, baseId: nat, i: nat, j: nat)
    requires i < j < count
    ensures IntendedActors(count, baseName, baseId)[i].id < IntendedActors(count, baseName, baseId)[j].id
    ensures IntendedActors(count, baseName, baseId)[i].name != IntendedActors(count, baseName, baseId)[j].name
  {
    if ActorLabel(baseName, i + 1) == ActorLabel(baseName, j + 1) {
      ActorLabelInjective(baseName, i + 1, j + 1);
    }
  }

  /** The registry after `register_actor(a)`: `None` becomes `[a]` and
      `Some(v)` becomes `v` followed by `a`; earlier actors keep their order. */
  function Registered(actors: Option<seq<Actor>>, a: Actor): (r: seq<Actor>)
    ensures |r| == |actors.GetOr([])| + 1
    ensures r[..|r| - 1] == actors.GetOr([]) && r[|r| - 1] == a
  {
    match actors
    case None => [a]
    case Some(v) => v + [a]
  }

  class System {
    var name: string
    var actors: Option<seq<Actor>>

    /** `System::new(name)`: the given name and no actors. */
    constructor (name: string)
      ensures Name() == name && Actors() == None
    {
      this.name := name;
      actors := None;
    }

    /** `name()`. */
    function Name(): string
      reads this
    {
      name
    }

    /** `actors()`. */
    function Actors(): Option<seq<Actor>>
      reads this
    {
      actors
    }

    /** `create_actor(name, id)`: an actor with that name and id; the system
        is not consulted or changed. */
    function CreateActor(actorName: string, actorId: nat): (a: Actor)
      ensures a.name == actorName && a.id == actorId
    {
      Actor(actorName, actorId)
    }

    /** `create_actors(count, base_name, base_id)` as written. */
    method CreateActors(count: nat, baseName: string, baseId: nat) returns (akts: seq<Actor>)
      requires count >= 2 ==> baseId >= 1
      ensures akts == CreatedActors(count, baseName, baseId)
      ensures |akts| == if count == 0 then 0 else count - 1
      ensures forall k :: 0 <= k < |akts| ==> akts[k].id == baseId + k && akts[k].name == ActorLabel(baseName, k + 1)
    {
      akts := [];
      var idx := 1;
      while idx < count
        invariant 1 <= idx <= if count == 0 then 1 else count
        invariant |akts| == idx - 1
        invariant forall k :: 0 <= k < |akts| ==> akts[k] == Actor(ActorLabel(baseName, k + 1), baseId + k)
      {
        var akt := Actor(ActorLabel(baseName, idx), baseId - 1 + idx);
        akts := akts + [akt];
        idx := idx + 1;
      }
      ghost var spec := CreatedActors(count, baseName, baseId);
      assert |akts| == |spec|;
      assert forall k :: 0 <= k < |akts| ==> akts[k] == spec[k];
    }

    /** `create_actors` with the loop over `1..=count`, as intended. */
    method CreateActorsIntended(count: nat, baseName: string, baseId: nat) returns (akts: seq<Actor>)
      ensures akts == IntendedActors(count, baseName, baseId)
      ensures |akts| == count
      ensures forall k :: 0 <= k < count ==> akts[k].id == baseId + k && akts[k].name == ActorLabel(baseName, k + 1)
    {
      akts := [];
      var idx := 1;
      while idx <= count
        invariant 1 <= idx <= count + 1
        invariant |akts| == idx - 1
        invariant forall k :: 0 <= k < |akts| ==> akts[k] == Actor(ActorLabel(baseName, k + 1), baseId + k)
      {
        var akt := Actor(ActorLabel(baseName, idx), baseId + idx - 1);
        akts := akts + [akt];
        idx := idx + 1;
      }
    }

    /** `register_actor(actor)`: appends the actor and returns status 0. */
    method RegisterActor(actor: Actor) returns (status: nat)
      modifies this
      ensures status == 0
      ensures actors == Some(Registered(old(actors), actor))
      ensures name == old(name)
    {
      match actors {
        case Some(v) => actors := Some(v + [actor]);
        case None => actors := Some([actor]);
      }
      status := 0;
    }

    /** `on_receive(msg)`: a `CreateActor` system message registers one actor
        named "raptor" with id 17 and returns its status 0; every other
        message is unsupported (the source panics) and changes nothing. */
    method OnReceive(msg: TypedMessage) returns (r: Result<nat, string>)
      modifies this
      ensures msg == SystemMsg(SystemCommand.CreateActor) ==>
        r == Ok(0) && actors == Some(Registered(old(actors), Actor("raptor", 17)))
      ensures msg != SystemMsg(SystemCommand.CreateActor) ==> r == Err("not implemented") && actors == old(actors)
      ensures name == old(name)
    {
      match msg {
        case SystemMsg(cmd) =>
          match cmd {
            case CreateActor =>
              var actor := CreateActor("raptor", 17);
              var status := RegisterActor(actor);
              r := Ok(status);
            case _ =>
              r := Err("not implemented");
          }
        case _ =>
          r := Err("not implemented");
      }
    }
  }

  /** Two `CreateActor` messages to a new system leave two actors, both
      named "raptor", as the source's example shows. */
  method CreateActorTwice(sysName: string) returns (count: nat, firstName: string, secondName: string)
    ensures count == 2 && firstName == "raptor" && secondName == "raptor"
  {
    var syst := new System(sysName);
    var _ := syst.OnReceive(SystemMsg(SystemCommand.CreateActor));
    var _ := syst.OnReceive(SystemMsg(SystemCommand.CreateActor));
    var registered := syst.Actors().value;
    count := |registered|;
    firstName := registered[0].name;
    secondName := registered[1].name;
  }

  /** `SystemBuilder`: optionally holds a config for `build`. */
  class SystemBuilder {
    var cfg: Option<SystemConfig>

    /** `SystemBuilder::new()`, the derived default: no config. */
    constructor ()
      ensures cfg == None
    {
      cfg := None;
    }

    /** `use_config(config)`. */
    method UseConfig(config: SystemConfig)
      modifies this
      ensures cfg == Some(config)
    {
      cfg := Some(config);
    }

    /** `build_with_config(name, config)`: a system with that name and no
        actors, whatever the config says. */
    method BuildWithConfig(name: string, config: SystemConfig) returns (s: System)
      ensures fresh(s)
      ensures s.Name() == name && s.Actors() == None
    {
      var numOfActors := NumOfActors(config).GetOr(0);
      s := new System(name);
    }

    /** `build(name)`: needs a config (the source's `expect` panics without
        one), then ignores it. */
    method Build(name: string) returns (r: Result<System, string>)
      ensures cfg == None ==> r == Err("failed to unwrap config")
      ensures cfg != None ==> r.Ok? && fresh(r.value) && r.value.Name() == name && r.value.Actors() == None
    {
      if cfg == None {
        r := Err("failed to unwrap config");
      } else {
        var s := new System(name);
        r := Ok(s);
      }
    }
  }
}
