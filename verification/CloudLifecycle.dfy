/** The registry and the container provider together: any number of coordinators, requests that
    are executed late, repeatedly or never, replies that are lost or stale, and crashes on either
    side at any point. */
module CloudLifecycle {
  import opened Common
  import opened CloudTypes
  import opened CloudRegistry
  import opened CloudRuns
  import opened CloudDocker

  datatype Answered = Answered(request: Request, reply: Reply)

  /** `replies` are all the replies the provider ever gave. */
  datatype System = System(registry: State, docker: Docker, replies: set<Answered>)

  datatype Move =
    | Registry(step: Step)
    | DockerBegin(request: Request, begins: Begins)
    | DockerStep(acts: Acts)
    | DockerCrash
    | ContainerVanishes(name: string)  // removed behind the provider's back
    | ContainerTurns(name: string, power: Power)  // started or stopped by itself

  predicate CanMove(s: System, move: Move) {
    match move
    case Registry(step) =>
      && CloudRegistry.Enabled(s.registry, step)
      // a call ends with a failure on the way, or with some reply to an equal request
      && (step.StepReply? && step.reply.Answer? ==> Answered(s.registry.call.value.request, step.reply) in s.replies)
    case DockerBegin(request, _) => s.docker.op == None && request in s.registry.issued
    case DockerStep(_) => s.docker.op.Some? && s.docker.op.value.request.allocation.generation in s.docker.ledger
    case DockerCrash => s.docker.op.Some?
    case ContainerVanishes(_) => true
    case ContainerTurns(name, _) => name in s.docker.containers
  }

  function Replied(s: System, r: Request, done: Done): System {
    s.(docker := done.docker,
       replies := if done.reply.Some? then s.replies + {Answered(r, done.reply.value)} else s.replies)
  }

  function Moved(c: Config, d: Setup, s: System, move: Move): System
    requires CanMove(s, move)
  {
    match move
    case Registry(step) => s.(registry := CloudRegistry.Apply(c, s.registry, step))
    case DockerBegin(request, begins) => Replied(s, request, BeginOp(d, s.docker, request, begins))
    case DockerStep(acts) => Replied(s, s.docker.op.value.request, StepOp(d, s.docker, acts))
    case DockerCrash => s.(docker := s.docker.(op := None))
    case ContainerVanishes(name) => s.(docker := s.docker.(containers := s.docker.containers - {name}))
    case ContainerTurns(name, power) => s.(docker := s.docker.(containers := s.docker.containers[name := power]))
  }

  /** Generation `g` is recorded as destroyed. */
  predicate Tombstone(ledger: Ledger, g: nat) { g in ledger && ledger[g].destroyed }

  /** The ledger knows nothing the registry does not: its generations are past or current, and the
      current one has the registry's allocation. Every generation the registry is done with is
      destroyed. */
  ghost predicate Agree(disk: Option<Binding>, ledger: Ledger) {
    && (forall g :: g in ledger ==> disk.Some? && g <= disk.value.allocation.generation)
    && (disk.Some? && disk.value.allocation.generation in ledger ==>
          ledger[disk.value.allocation.generation].allocation == disk.value.allocation)
    && (disk.Some? ==> forall g :: 0 < g < disk.value.allocation.generation ==> Tombstone(ledger, g))
    && (disk.Some? && disk.value.retired ==> Tombstone(ledger, disk.value.allocation.generation))
  }

  ghost predicate SystemOk(c: Config, d: Setup, s: System) {
    && CloudRuns.Inv(c, s.registry)
    && DockerOk(d, s.docker)
    && Agree(s.registry.disk, s.docker.ledger)
    && (s.docker.op.Some? ==> s.docker.op.value.request in s.registry.issued)
    && (forall x :: x in s.replies ==> Truthful(s.docker.ledger, x.request, x.reply))
  }

  function Start(): System { System(CloudRuns.Init(), Docker(map[], map[], None), {}) }

  lemma StartOk(c: Config, d: Setup)
    requires c.Valid()
    ensures SystemOk(c, d, Start())
  {
  }

  /** A write of the registry: the generation it retires, if any, is a tombstone already. */
  lemma AgreeAfterWrite(disk: Option<Binding>, disk': Option<Binding>, ledger: Ledger)
    requires Agree(disk, ledger) && Changes(disk, disk') && (disk.Some? ==> disk.value.allocation.generation > 0)
    requires disk'.Some? && disk'.value.retired && disk != disk'
             ==> Tombstone(ledger, disk'.value.allocation.generation)
    ensures Agree(disk', ledger)
  {
    if disk == None && disk'.Some? { assert forall g :: g !in ledger; }
  }

  lemma AgreeAfterDocker(disk: Option<Binding>, ledger: Ledger, ledger': Ledger, r: Request)
    requires Agree(disk, ledger) && Grows(ledger, ledger') && IssuedOk(disk, r)
    requires forall g :: g in ledger' ==>
               g in ledger || (g == r.allocation.generation && ledger'[g].allocation == r.allocation)
    ensures Agree(disk, ledger')
  {
    forall g | 0 < g < disk.value.allocation.generation ensures Tombstone(ledger', g) { assert Tombstone(ledger, g); }
  }

  lemma TruthStays(ledger: Ledger, ledger': Ledger, x: Answered)
    requires Truthful(ledger, x.request, x.reply) && Grows(ledger, ledger')
    ensures Truthful(ledger', x.request, x.reply)
  {
  }

  lemma DockerMoves(c: Config, d: Setup, s: System, r: Request, done: Done)
    requires SystemOk(c, d, s) && Sound(d, s.docker, r, done) && r in s.registry.issued
    ensures SystemOk(c, d, Replied(s, r, done))
  {
    hide DockerOk, CloudRuns.Inv, Truthful, Agree;
    var s' := Replied(s, r, done);
    IssuedIs(c, s.registry, r);
    AgreeAfterDocker(s.registry.disk, s.docker.ledger, done.docker.ledger, r);
    forall x | x in s'.replies ensures Truthful(s'.docker.ledger, x.request, x.reply) {
      if x in s.replies { TruthStays(s.docker.ledger, s'.docker.ledger, x); }
    }
  }

  lemma IssuedIs(c: Config, s: State, r: Request)
    requires CloudRuns.Inv(c, s) && r in s.issued
    ensures IssuedOk(s.disk, r)
  {
  }

  /** The reply that retires a generation is a truthful one. */
  lemma RetiresTombstone(c: Config, d: Setup, s: System, step: Step)
    requires SystemOk(c, d, s) && CanMove(s, Registry(step))
    requires var disk' := CloudRegistry.Apply(c, s.registry, step).disk;
             disk' != s.registry.disk && disk'.Some? && disk'.value.retired
    ensures Tombstone(s.docker.ledger, CloudRegistry.Apply(c, s.registry, step).disk.value.allocation.generation)
  {
    hide DockerOk, Agree, Begin, Finish;
    if step.StepReply? {
      ReplyRetires(c, s.registry.disk, s.registry.call.value, step.reply, step.write);
      assert Truthful(s.docker.ledger, s.registry.call.value.request, step.reply);
    } else if !step.StepVanish? {
      BeginRetiresNothing(c, s.registry, step);
    }
  }

  lemma RegistryMoves(c: Config, d: Setup, s: System, step: Step)
    requires SystemOk(c, d, s) && CanMove(s, Registry(step))
    ensures SystemOk(c, d, Moved(c, d, s, Registry(step)))
  {
    hide DockerOk, Truthful, Agree, CloudRegistry.Apply, CloudRegistry.Enabled;
    var registry' := CloudRegistry.Apply(c, s.registry, step);
    StepInv(c, s.registry, step);
    StepChanges(c, s.registry, step);
    IssuedStays(c, s.registry, step);
    if registry'.disk != s.registry.disk && registry'.disk.Some? && registry'.disk.value.retired {
      RetiresTombstone(c, d, s, step);
    }
    if s.registry.disk.Some? { DiskIs(c, s.registry); }
    AgreeAfterWrite(s.registry.disk, registry'.disk, s.docker.ledger);
  }

  lemma IssuedStays(c: Config, s: State, step: Step)
    requires CloudRegistry.Enabled(s, step)
    ensures s.issued <= CloudRegistry.Apply(c, s, step).issued
  {
  }

  /** Every move of either side keeps the two in agreement. */
  lemma MoveOk(c: Config, d: Setup, s: System, move: Move)
    requires SystemOk(c, d, s) && CanMove(s, move)
    ensures SystemOk(c, d, Moved(c, d, s, move))
  {
    match move
    case Registry(step) => RegistryMoves(c, d, s, step);
    case DockerBegin(request, begins) =>
      BeginSound(d, s.docker, request, begins);
      DockerMoves(c, d, s, request, BeginOp(d, s.docker, request, begins));
    case DockerStep(acts) =>
      StepSound(d, s.docker, acts);
      DockerMoves(c, d, s, s.docker.op.value.request, StepOp(d, s.docker, acts));
    case DockerCrash =>
    case ContainerVanishes(_) =>
    case ContainerTurns(_, _) =>
  }

  // ---- runs ----

  ghost predicate IsHistory(c: Config, d: Setup, run: seq<System>, moves: seq<Move>) {
    && c.Valid() && |run| == |moves| + 1 && run[0] == Start()
    && forall i :: 0 <= i < |moves| ==> CanMove(run[i], moves[i]) && run[i + 1] == Moved(c, d, run[i], moves[i])
  }

  lemma {:induction false} HistoryOk(c: Config, d: Setup, run: seq<System>, moves: seq<Move>, k: nat)
    requires IsHistory(c, d, run, moves) && k < |run|
    ensures SystemOk(c, d, run[k])
  {
    hide CanMove, Moved, SystemOk;
    if k == 0 {
      StartOk(c, d);
    } else {
      HistoryOk(c, d, run, moves, k - 1);
      MoveOk(c, d, run[k - 1], moves[k - 1]);
    }
  }

  /** Over every run at most one container exists for the workspace. */
  lemma OneContainerPerWorkspace(c: Config, d: Setup, run: seq<System>, moves: seq<Move>, k: nat, n: string, m: string)
    requires IsHistory(c, d, run, moves) && k < |run| && n in run[k].docker.containers && m in run[k].docker.containers
    ensures n == m
  {
    HistoryOk(c, d, run, moves, k);
    AtMostOneContainer(d, run[k].docker, n, m);
  }

  /** It is that of the registry's current generation, which is not retired. */
  lemma ContainerIsCurrent(c: Config, d: Setup, run: seq<System>, moves: seq<Move>, k: nat, n: string)
    requires IsHistory(c, d, run, moves) && k < |run| && n in run[k].docker.containers
    ensures run[k].registry.disk.Some? && !run[k].registry.disk.value.retired
    ensures n == Name(d, run[k].registry.disk.value.allocation.generation)
  {
    HistoryOk(c, d, run, moves, k);
    var s := run[k];
    hide CloudRuns.Inv, Truthful, IsHistory;
    var g :| g in s.docker.ledger && !s.docker.ledger[g].destroyed && n == Name(d, g);
    assert g < s.registry.disk.value.allocation.generation ==> Tombstone(s.docker.ledger, g);
  }

  /** Only the highest generation of the ledger may not be destroyed. */
  lemma OnlyLatestUndestroyed(c: Config, d: Setup, run: seq<System>, moves: seq<Move>, k: nat, g: nat, h: nat)
    requires IsHistory(c, d, run, moves) && k < |run|
    requires g in run[k].docker.ledger && h in run[k].docker.ledger && g < h
    ensures run[k].docker.ledger[g].destroyed
  {
    HistoryOk(c, d, run, moves, k);
  }

  /** A generation that the registry has retired, or left behind, is destroyed in the ledger. */
  lemma RetiredIsDestroyed(c: Config, d: Setup, run: seq<System>, moves: seq<Move>, k: nat, g: nat)
    requires IsHistory(c, d, run, moves) && k < |run| && run[k].registry.disk.Some? && g > 0
    requires var b := run[k].registry.disk.value;
             g < b.allocation.generation || (b.retired && g == b.allocation.generation)
    ensures Tombstone(run[k].docker.ledger, g)
  {
    HistoryOk(c, d, run, moves, k);
  }

  /** Once a generation is destroyed its container never comes back. */
  lemma {:induction false} DestroyedStaysGone(c: Config, d: Setup, run: seq<System>, moves: seq<Move>, i: nat, j: nat,
                                              g: nat)
    requires IsHistory(c, d, run, moves) && i <= j < |run| && Tombstone(run[i].docker.ledger, g)
    ensures Tombstone(run[j].docker.ledger, g) && Name(d, g) !in run[j].docker.containers
    decreases j - i
  {
    hide CanMove, Moved, SystemOk, Name;
    HistoryOk(c, d, run, moves, j);
    if i == j {
      TombstoneHasNoContainer(c, d, run[j], g);
    } else {
      DestroyedStaysGone(c, d, run, moves, i, j - 1, g);
      HistoryOk(c, d, run, moves, j - 1);
      TombstoneStays(c, d, run[j - 1], moves[j - 1], g);
      TombstoneHasNoContainer(c, d, run[j], g);
    }
  }

  lemma TombstoneHasNoContainer(c: Config, d: Setup, s: System, g: nat)
    requires SystemOk(c, d, s) && Tombstone(s.docker.ledger, g)
    ensures Name(d, g) !in s.docker.containers
  {
    if Name(d, g) in s.docker.containers {
      var h :| h in s.docker.ledger && !s.docker.ledger[h].destroyed && Name(d, g) == Name(d, h);
      NamesDiffer(d, g, h);
    }
  }

  lemma TombstoneStays(c: Config, d: Setup, s: System, move: Move, g: nat)
    requires SystemOk(c, d, s) && CanMove(s, move) && Tombstone(s.docker.ledger, g)
    ensures Tombstone(Moved(c, d, s, move).docker.ledger, g)
  {
    hide CloudRegistry.Apply, Agree, Truthful, BeginOp, StepOp;
    match move
    case DockerBegin(request, begins) => BeginSound(d, s.docker, request, begins);
    case DockerStep(acts) => StepSound(d, s.docker, acts);
    case _ =>
  }
}
