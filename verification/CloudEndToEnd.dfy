/** A workspace's machine from the registry's operation down to the container and back, when nothing
    disturbs it. */
module CloudEndToEnd {
  import opened Common
  import opened CloudTypes
  import opened CloudRegistry
  import opened CloudRuns
  import opened CloudCommands
  import opened CloudDocker
  import opened CloudProvider
  import opened CloudOutcomes
  import opened CloudLifecycle

  /** Registry and provider agree and neither is in the middle of anything. */
  ghost predicate AtRest(c: Config, d: Setup, s: System) {
    SystemOk(c, d, s) && c.provider == d.id && s.registry.call == None && s.docker.op == None
  }

  /** In every state of every run at rest, a generation that follows a retired one, or the first, is
      one that the provider lets in. */
  lemma NextGenerationFits(c: Config, d: Setup, s: System)
    requires AtRest(c, d, s) && (s.registry.disk.Some? ==> s.registry.disk.value.retired)
    ensures var g := if s.registry.disk.Some? then s.registry.disk.value.allocation.generation + 1 else 1;
            g !in s.docker.ledger && MayInsert(s.docker.ledger, g) && s.docker.containers == map[]
  {
    hide CloudRuns.Inv, Truthful, Name;
    var ledger := s.docker.ledger;
    if s.registry.disk.Some? {
      var last := s.registry.disk.value.allocation.generation;
      assert Tombstone(ledger, last);
      assert forall g :: g in ledger ==> g <= last && (g < last ==> ledger[g].destroyed);
    } else {
      assert forall g :: g !in ledger;
    }
    AllDestroyedIsEmpty(d, s.docker);
  }

  lemma AllDestroyedIsEmpty(d: Setup, docker: Docker)
    requires DockerOk(d, docker) && forall g :: g in docker.ledger ==> docker.ledger[g].destroyed
    ensures docker.containers == map[]
  {
    assert forall name :: name in docker.containers ==> Owned(d, docker.ledger, name);
    hide Name;
  }

  /** `ensure` for a workspace without a live machine, from any reachable state at rest: the
      container is created and started, and the stored record is settled on the running machine of
      the new generation. */
  lemma EnsureBringsUp(c: Config, d: Setup, s: System, spec: Spec, launch: Launch, clock: Clock, env: Begins,
                       acts: seq<Acts>)
    requires AtRest(c, d, s) && (s.registry.disk.Some? ==> s.registry.disk.value.retired)
    requires BeginEnsure(c, s.registry.disk, spec, Initialized(launch), clock, Written).Calling?
    requires Fresh(c, s.registry.disk, spec, Initialized(launch)).revision + 1 < U64_MAX
    requires Proper(d, Fresh(c, s.registry.disk, spec, Initialized(launch)).allocation, env.safe)
    requires launch.Active(env.now) && env.image.Some? && env.insert == Written && Smooth(acts) && |acts| >= 8
    ensures var a := Fresh(c, s.registry.disk, spec, Initialized(launch)).allocation;
            var begun := BeginEnsure(c, s.registry.disk, spec, Initialized(launch), clock, Written);
            var end := Carry(d, BeginOp(d, s.docker, begun.call.request, env), acts);
            && begun.call.request == Request(DoEnsure, a, None)
            && end.docker.containers == map[Name(d, a.generation) := Up]
            && Tells(d, a, Up, end.reply)
            && var saved := Finish(begun.disk, begun.call, end.reply.value, Written);
               && saved.result.Ok? && saved.disk == Some(saved.result.binding)
               && Settled(saved.result.binding, a, Running)
  {
    var b := Fresh(c, s.registry.disk, spec, Initialized(launch));
    DiskIsSound(c, d, s);
    EnsureGoesOut(c, s.registry.disk, spec, Initialized(launch), clock);
    NextGenerationFits(c, d, s);
    hide SystemOk, BeginEnsure, BeginOp, MayInsert, Name, Finish, Carry, Fresh;
    var begun := BeginEnsure(c, s.registry.disk, spec, Initialized(launch), clock, Written);
    FreshIs(c, s.registry.disk, spec, launch);
    EnsureGoesOn(d, s.docker, begun.call.request, env);
    EnsureSucceeds(d, s.docker, begun.call.request, env, acts);
    var end := Carry(d, BeginOp(d, s.docker, begun.call.request, env), acts);
    TellsValid(d, b.allocation, env.safe, Up, end.reply);
    EnsureCompletes(c, s.registry.disk, spec, Initialized(launch), clock, end.reply.value.status);
  }

  lemma FreshIs(c: Config, disk: Option<Binding>, spec: Spec, launch: Launch)
    ensures var b := Fresh(c, disk, spec, Initialized(launch));
            && b.allocation.launch == Some(launch) && b.status == None && b.lastError == None && !b.retired
            && b.allocation.generation == if disk.Some? then disk.value.allocation.generation + 1 else 1
  {
  }

  lemma DiskIsSound(c: Config, d: Setup, s: System)
    requires SystemOk(c, d, s)
    ensures c.Valid() && (s.registry.disk.Some? ==> LoadOk(s.registry.disk.value, c.key))
  {
    hide DockerOk, Agree, Truthful, LoadOk;
  }

  /** The stored record is settled on the machine of allocation `a` in this state. */
  predicate Settled(b: Binding, a: Allocation, state: MachineState) {
    && b.allocation == a && b.status.Some? && b.status.value.state == state
    && b.pending == None && b.lastError == None && (b.retired <==> state == Destroyed)
  }

  lemma TellsValid(c: Setup, a: Allocation, safe: bool, power: Power, reply: Option<Reply>)
    requires Proper(c, a, safe) && Tells(c, a, power, reply)
    ensures Validate(reply.value.status, a, None) == None
    ensures Validate(reply.value.status, a, Some(HandleOf(c, a))) == None
  {
    hide Name;
  }

  /** A command on the live machine of a record that both sides know. */
  ghost predicate Commands(c: Config, d: Setup, s: System, intent: Intent, clock: Clock, env: Begins, acts: seq<Acts>) {
    && AtRest(c, d, s) && s.registry.disk.Some? && Smooth(acts) && |acts| >= 5
    && var b := s.registry.disk.value;
       && Proper(d, b.allocation, env.safe) && b.revision + 1 < U64_MAX
       && BeginCommand(c, s.registry.disk, HandleOf(d, b.allocation), intent, clock, Written).Calling?
       && b.allocation.generation in s.docker.ledger && !s.docker.ledger[b.allocation.generation].destroyed
       && (intent == Start ==>
             env.image == Some(s.docker.ledger[b.allocation.generation].image)
             && b.allocation.launch.value.Active(env.now))
       && (intent == Destroy ==> env.destroying == Written)
       && (intent != Destroy ==> !s.docker.ledger[b.allocation.generation].destroying)
  }

  lemma CommandIsLetIn(c: Config, d: Setup, s: System, intent: Intent, clock: Clock, env: Begins, acts: seq<Acts>)
    returns (begun: Begun)
    requires Commands(c, d, s, intent, clock, env, acts) && intent != Ensure
    ensures begun == BeginCommand(c, s.registry.disk, HandleOf(d, s.registry.disk.value.allocation), intent, clock,
              Written)
    ensures begun.Calling? && begun.call.request.allocation == s.registry.disk.value.allocation
    ensures Serves(begun.call.request.action, Some(intent))
    ensures OtherAccepted(d, s.docker, begun.call.request, env)
  {
    var b, handle := s.registry.disk.value, HandleOf(d, s.registry.disk.value.allocation);
    begun := BeginCommand(c, s.registry.disk, handle, intent, clock, Written);
    CommandStores(c, s.registry.disk, handle, intent, clock, Written);
    CommandRequests(c, b, handle, intent, clock);
    AgreesOnCurrent(c, d, s);
    hide SystemOk, BeginCommand, HandleOf, LoadOk;
  }

  lemma CommandRequests(c: Config, b: Binding, handle: Handle, intent: Intent, clock: Clock)
    requires BeginCommand(c, Some(b), handle, intent, clock, Written).Calling? && intent != Ensure
    ensures var r := BeginCommand(c, Some(b), handle, intent, clock, Written).call.request;
            Serves(r.action, Some(intent)) && r.allocation == b.allocation && r.handle == Some(handle)
  {
    hide Validate, LoadOk;
  }

  lemma AgreesOnCurrent(c: Config, d: Setup, s: System)
    requires SystemOk(c, d, s) && s.registry.disk.Some?
    requires s.registry.disk.value.allocation.generation in s.docker.ledger
    ensures s.docker.ledger[s.registry.disk.value.allocation.generation].allocation == s.registry.disk.value.allocation
  {
    hide CloudRuns.Inv, DockerOk, Truthful;
  }

  /** An undisturbed `stop` takes a running machine's container down and settles the record there. */
  lemma StopTakesDown(c: Config, d: Setup, s: System, clock: Clock, env: Begins, acts: seq<Acts>)
    requires Commands(c, d, s, Stop, clock, env, acts)
    requires var name := Name(d, s.registry.disk.value.allocation.generation);
             name in s.docker.containers && s.docker.containers[name] != Idle
    ensures var a := s.registry.disk.value.allocation;
            var begun := BeginCommand(c, s.registry.disk, HandleOf(d, a), Stop, clock, Written);
            var end := Carry(d, BeginOp(d, s.docker, begun.call.request, env), acts);
            && end.docker.containers == s.docker.containers[Name(d, a.generation) := Down]
            && Tells(d, a, Down, end.reply)
            && var saved := Finish(begun.disk, begun.call, end.reply.value, Written);
               saved.result.Ok? && saved.disk == Some(saved.result.binding) && Settled(saved.result.binding, a, Stopped)
  {
    var b := s.registry.disk.value;
    var begun := CommandIsLetIn(c, d, s, Stop, clock, env, acts);
    hide SystemOk, BeginCommand, BeginOp, Name, Finish, Carry, OtherAccepted, HandleOf, Proper;
    StopSucceeds(d, s.docker, begun.call.request, env, acts);
    var end := Carry(d, BeginOp(d, s.docker, begun.call.request, env), acts);
    TellsValid(d, b.allocation, env.safe, Down, end.reply);
    CommandCompletes(c, b, HandleOf(d, b.allocation), Stop, clock, end.reply.value.status);
  }

  /** An undisturbed `start` brings the machine's container up and settles the record there. */
  lemma StartBringsUp(c: Config, d: Setup, s: System, clock: Clock, env: Begins, acts: seq<Acts>)
    requires Commands(c, d, s, Start, clock, env, acts)
    requires Name(d, s.registry.disk.value.allocation.generation) in s.docker.containers
    ensures var a := s.registry.disk.value.allocation;
            var begun := BeginCommand(c, s.registry.disk, HandleOf(d, a), Start, clock, Written);
            var end := Carry(d, BeginOp(d, s.docker, begun.call.request, env), acts);
            && end.docker.containers == s.docker.containers[Name(d, a.generation) := Up]
            && Tells(d, a, Up, end.reply)
            && var saved := Finish(begun.disk, begun.call, end.reply.value, Written);
               saved.result.Ok? && saved.disk == Some(saved.result.binding) && Settled(saved.result.binding, a, Running)
  {
    var b := s.registry.disk.value;
    var begun := CommandIsLetIn(c, d, s, Start, clock, env, acts);
    hide SystemOk, BeginCommand, BeginOp, Name, Finish, Carry, OtherAccepted, HandleOf, Proper;
    StartSucceeds(d, s.docker, begun.call.request, env, acts);
    var end := Carry(d, BeginOp(d, s.docker, begun.call.request, env), acts);
    TellsValid(d, b.allocation, env.safe, Up, end.reply);
    CommandCompletes(c, b, HandleOf(d, b.allocation), Start, clock, end.reply.value.status);
  }

  /** An undisturbed `destroy` leaves no container and retires the record. */
  lemma DestroyTakesAway(c: Config, d: Setup, s: System, clock: Clock, env: Begins, acts: seq<Acts>)
    requires Commands(c, d, s, Destroy, clock, env, acts)
    ensures var a := s.registry.disk.value.allocation;
            var begun := BeginCommand(c, s.registry.disk, HandleOf(d, a), Destroy, clock, Written);
            var end := Carry(d, BeginOp(d, s.docker, begun.call.request, env), acts);
            && end.docker.containers == s.docker.containers - {Name(d, a.generation)}
            && Tombstone(end.docker.ledger, a.generation)
            && end.reply == Some(Answer(Dead(d, a)))
            && var saved := Finish(begun.disk, begun.call, end.reply.value, Written);
               saved.result.Ok? && saved.disk == Some(saved.result.binding)
                 && Settled(saved.result.binding, a, Destroyed)
  {
    var b := s.registry.disk.value;
    var begun := CommandIsLetIn(c, d, s, Destroy, clock, env, acts);
    DeadIsValid(d, b.allocation, env.safe);
    hide SystemOk, BeginCommand, BeginOp, Name, Finish, Carry, OtherAccepted, HandleOf, Proper;
    DestroySucceeds(d, s.docker, begun.call.request, env, acts);
    CommandCompletes(c, b, HandleOf(d, b.allocation), Destroy, clock, Dead(d, b.allocation));
  }

  lemma DeadIsValid(c: Setup, a: Allocation, safe: bool)
    requires Proper(c, a, safe)
    ensures Validate(Dead(c, a), a, Some(HandleOf(c, a))) == None && Dead(c, a).state == Destroyed
  {
    hide Name;
  }
}
