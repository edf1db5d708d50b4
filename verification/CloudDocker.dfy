/** The container provider: a ledger of generations under a file lock, and containers that are
    there or not, running or not. Every command line action takes effect or not, whatever it
    reports. */
module CloudDocker {
  import opened Common
  import opened CloudTypes
  import opened CloudRegistry

  datatype Record = Record(allocation: Allocation, image: string, destroying: bool, destroyed: bool, created: bool)

  type Ledger = map<nat, Record>

  /** What a container does: created and never started, running, or stopped. */
  datatype Power = Idle | Up | Down

  /** How far an operation on a live generation has come; each names the action due next. */
  datatype Phase =
    | Known            // ensure: is a container created before still there?
    | Look             // is the container there?
    | Create           // create it
    | Look2            // was it created?
    | NoteCreated      // record that it was
    | See              // does it run?
    | TurnOn           // start it
    | TurnOff          // stop it
    | Poll(left: nat)  // stopping timed out: does it still run?
    | Report           // inspect it for the reply
    | LookDown         // destroy: is it there, and does it run?
    | Remove           // remove it
    | Verify           // is it gone?
    | NoteDestroyed    // record that it is

  const POLLS: nat := 10

  datatype Op = Op(request: Request, phase: Phase)

  /** `name` starts every container's name: it is a hash of the provider and the workspace. */
  datatype Setup = Setup(id: string, name: string)

  datatype Docker = Docker(ledger: Ledger, containers: map<string, Power>, op: Option<Op>)

  datatype Done = Done(docker: Docker, reply: Option<Reply>)

  function Decimal(n: nat): string {
    if n < 10 then [['0', '1', '2', '3', '4', '5', '6', '7', '8', '9'][n]] else Decimal(n / 10) + Decimal(n % 10)
  }

  function Name(c: Setup, generation: nat): string { c.name + "-g" + Decimal(generation) }

  function HandleOf(c: Setup, a: Allocation): Handle { Handle(a.owner, a.generation, c.id, Name(c, a.generation)) }

  function Dead(c: Setup, a: Allocation): Status { Status(HandleOf(c, a), Destroyed, false, None, None) }

  /** Some failures are worth another try. */
  function ErrorOf(code: FailureCode): ProviderError {
    ProviderError(code, code == Transport || code == Timeout || code == Unavailable)
  }

  function Fails(d: Docker, code: FailureCode): Done { Done(d.(op := None), Some(Failure(ErrorOf(code)))) }

  function Goes(d: Docker, r: Request, phase: Phase): Done { Done(d.(op := Some(Op(r, phase))), None) }

  /** What an allocation must be for this provider; `safe` stands for its mount targets. */
  predicate Accepts(c: Setup, a: Allocation, safe: bool) {
    && a.owner.Valid() && a.spec.Valid() && a.provider == c.id && a.generation > 0
    && a.launch.Some? && a.launch.value.Valid() && safe
  }

  /** A new generation is the first, or follows a destroyed one. */
  predicate MayInsert(ledger: Ledger, generation: nat) {
    if ledger == map[] then generation == 1
    else exists last :: last in ledger && (forall g :: g in ledger ==> g <= last)
                        && last < generation && ledger[last].destroyed
  }

  /** What the environment contributes to the start of an operation. */
  datatype Begins = Begins(safe: bool, image: Option<string>, now: nat, insert: Write, destroying: Write)

  /** Up to the first await: locking, recording a new generation, guarding. */
  function BeginOp(c: Setup, d: Docker, r: Request, env: Begins): Done {
    var a := r.allocation;
    if !Accepts(c, a, env.safe) then Fails(d, Rejected)
    else if r.action == DoEnsure && a.generation !in d.ledger then
      if !a.launch.value.Active(env.now) then Fails(d, Rejected)
      else if !MayInsert(d.ledger, a.generation) then Fails(d, Conflicting)
      else if env.image == None then Fails(d, Rejected)
      else
        var inserted := d.(ledger := d.ledger[a.generation := Record(a, env.image.value, false, false, false)]);
        match env.insert
        case NotWritten => Fails(d, Unavailable)
        case WrittenUnreported => Fails(inserted, Unavailable)
        case Written => Guarded(c, inserted, r, env)
    else Guarded(c, d, r, env)
  }

  function Guarded(c: Setup, d: Docker, r: Request, env: Begins): Done
    requires Accepts(c, r.allocation, env.safe)
  {
    var a := r.allocation;
    if a.generation !in d.ledger then Fails(d, NotFound)
    else
      var record := d.ledger[a.generation];
      if record.allocation != a || (r.handle.Some? && r.handle.value != HandleOf(c, a)) then Fails(d, Identity)
      else if record.destroyed then
        if r.action == DoDestroy || r.action == DoInspect then Done(d.(op := None), Some(Answer(Dead(c, a))))
        else Fails(d, Conflicting)
      else if record.destroying && r.action != DoDestroy then Fails(d, Conflicting)
      else if (r.action == DoEnsure || r.action == DoStart) && env.image != Some(record.image) then
        Fails(d, if env.image == None then Rejected else Conflicting)
      else if (r.action == DoEnsure || r.action == DoStart) && !a.launch.value.Active(env.now) then Fails(d, Rejected)
      else
        match r.action
        case DoEnsure => Goes(d, r, if record.created then Known else Look)
        case DoDestroy =>
          var marked := d.(ledger := d.ledger[a.generation := record.(destroying := true)]);
          (match env.destroying
           case NotWritten => Fails(d, Unavailable)
           case WrittenUnreported => Fails(marked, Unavailable)
           case Written => Goes(marked, r, LookDown))
        case DoInspect => Goes(d, r, Report)
        case _ => Goes(d, r, See)
  }

  /** What the environment contributes to a later action: an error, whether the command took
      effect, how a write ends, and whether the worker in the container is healthy. */
  datatype Acts = Acts(error: Option<FailureCode>, effect: bool, write: Write, healthy: bool)

  /** What an inspection makes of a container. */
  function StatusOf(c: Setup, a: Allocation, power: Power, healthy: bool): Status {
    var state := match power case Idle => Provisioning case Up => Running case Down => Stopped;
    Status(HandleOf(c, a), state, power == Up && healthy,
           if power == Up then Some(Connection(HandleOf(c, a), true)) else None, None)
  }

  /** The answer of an inspection. */
  function Inspected(c: Setup, d: Docker, a: Allocation, env: Acts): Reply {
    if env.error.Some? then Failure(ErrorOf(env.error.value))
    else if Name(c, a.generation) !in d.containers then Failure(ErrorOf(NotFound))
    else
      var status := StatusOf(c, a, d.containers[Name(c, a.generation)], env.healthy);
      var error := Validate(status, a, None);
      if error.Some? then Failure(error.value) else Answer(status)
  }

  /** A command that starts or stops a container, if it is there and the command takes effect. */
  function Turned(d: Docker, name: string, power: Power, env: Acts): Docker {
    if env.effect && name in d.containers then d.(containers := d.containers[name := power]) else d
  }

  /** The container is stopped: on to removing it, or to the reply. */
  function AfterOff(d: Docker, r: Request): Done { Goes(d, r, if r.action == DoDestroy then Remove else Report) }

  function StepOp(c: Setup, d: Docker, env: Acts): Done
    requires d.op.Some? && d.op.value.request.allocation.generation in d.ledger
  {
    var r, a := d.op.value.request, d.op.value.request.allocation;
    var record, name := d.ledger[a.generation], Name(c, a.generation);
    match d.op.value.phase
    case Known =>
      if env.error.Some? then Fails(d, env.error.value)
      else if name in d.containers then Goes(d, r, Look) else Fails(d, NotFound)
    case Look =>
      if env.error.Some? then Fails(d, env.error.value)
      else Goes(d, r, if name in d.containers then NoteCreated else Create)
    case Create =>
      var created := if env.effect && name !in d.containers then d.(containers := d.containers[name := Idle]) else d;
      if env.error.Some? then Fails(created, env.error.value) else Goes(created, r, Look2)
    case Look2 =>
      if env.error.Some? then Fails(d, env.error.value)
      else if name in d.containers then Goes(d, r, NoteCreated) else Fails(d, NotFound)
    case NoteCreated =>
      var noted := d.(ledger := d.ledger[a.generation := record.(created := true)]);
      (match env.write
       case NotWritten => Fails(d, Unavailable)
       case WrittenUnreported => Fails(noted, Unavailable)
       case Written => Goes(noted, r, See))
    case See =>
      (match Inspected(c, d, a, env)
       case Failure(e) => Done(d.(op := None), Some(Failure(e)))
       case Answer(status) =>
         if r.action == DoStop then Goes(d, r, if status.state == Running then TurnOff else Report)
         else Goes(d, r, if status.state == Running then Report else TurnOn))
    case TurnOn =>
      var on := Turned(d, name, Up, env);
      if env.error.Some? then Fails(on, env.error.value) else Goes(on, r, Report)
    case TurnOff =>
      var off := Turned(d, name, Down, env);
      if env.error == Some(Timeout) then Goes(off, r, Poll(POLLS))
      else if env.error.Some? then Fails(off, env.error.value)
      else AfterOff(off, r)
    case Poll(left) =>
      // it may stop while it is being watched
      var off := Turned(d, name, Down, env);
      if env.error.Some? then Fails(off, env.error.value)
      else if name !in off.containers then Fails(off, NotFound)
      else if off.containers[name] != Up then AfterOff(off, r)
      else if left <= 1 then Fails(off, Timeout)
      else Goes(off, r, Poll(left - 1))
    case Report => Done(d.(op := None), Some(Inspected(c, d, a, env)))
    case LookDown =>
      if env.error.Some? then Fails(d, env.error.value)
      else if name !in d.containers then Goes(d, r, Verify)
      else Goes(d, r, if d.containers[name] == Up then TurnOff else Remove)
    case Remove =>
      var removed := d.(containers := if env.effect then d.containers - {name} else d.containers);
      if env.error.Some? then Fails(removed, env.error.value) else Goes(removed, r, Verify)
    case Verify =>
      if env.error.Some? then Fails(d, env.error.value)
      else if name in d.containers then Fails(d, Conflicting) else Goes(d, r, NoteDestroyed)
    case NoteDestroyed =>
      var noted := d.(ledger := d.ledger[a.generation := record.(destroyed := true)]);
      (match env.write
       case NotWritten => Fails(d, Unavailable)
       case WrittenUnreported => Fails(noted, Unavailable)
       case Written => Done(noted.(op := None), Some(Answer(Dead(c, a)))))
  }

  // ---- what every operation keeps ----

  /** Every record is its own generation's, and all but the latest generation are destroyed. */
  ghost predicate LedgerOk(ledger: Ledger) {
    && (forall g :: g in ledger ==> g > 0 && ledger[g].allocation.generation == g)
    && (forall g, h :: g in ledger && h in ledger && g < h ==> ledger[g].destroyed)
  }

  /** The container belongs to a generation that is not destroyed. */
  ghost predicate Owned(c: Setup, ledger: Ledger, name: string) {
    exists g :: g in ledger && !ledger[g].destroyed && name == Name(c, g)
  }

  predicate OpOk(c: Setup, d: Docker, op: Op) {
    var g := op.request.allocation.generation;
    && g in d.ledger && d.ledger[g].allocation == op.request.allocation && !d.ledger[g].destroyed
    && (op.phase.LookDown? || op.phase.Remove? || op.phase.Verify? || op.phase.NoteDestroyed? ==>
          op.request.action == DoDestroy)
    && (op.phase.Known? || op.phase.Look? || op.phase.Create? || op.phase.Look2? || op.phase.NoteCreated? ==>
          op.request.action == DoEnsure)
    && (op.request.action == DoDestroy ==> d.ledger[g].destroying)
    && (op.phase == NoteDestroyed ==> Name(c, g) !in d.containers)
  }

  ghost predicate DockerOk(c: Setup, d: Docker) {
    && LedgerOk(d.ledger)
    && (forall name :: name in d.containers ==> Owned(c, d.ledger, name))
    && (d.op.Some? ==> OpOk(c, d, d.op.value))
  }

  /** A generation once recorded keeps its allocation, and once destroyed stays so. */
  ghost predicate Grows(ledger: Ledger, ledger': Ledger) {
    forall g :: g in ledger ==>
      g in ledger' && ledger'[g].allocation == ledger[g].allocation && (ledger[g].destroyed ==> ledger'[g].destroyed)
  }

  /** An answer that says destroyed is about a generation recorded so. */
  predicate Truthful(ledger: Ledger, r: Request, reply: Reply) {
    reply.Answer? && reply.status.state == Destroyed ==>
      var g := r.allocation.generation; g in ledger && ledger[g].allocation == r.allocation && ledger[g].destroyed
  }

  /** What an operation on request `r` does to a sound provider. */
  ghost predicate Sound(c: Setup, d: Docker, r: Request, done: Done) {
    && DockerOk(c, done.docker)
    && Grows(d.ledger, done.docker.ledger)
    && (done.docker.op.Some? ==> done.docker.op.value.request == r)
    && (done.reply.Some? ==> Truthful(done.docker.ledger, r, done.reply.value))
    && (forall g :: g in done.docker.ledger ==>
          g in d.ledger || (g == r.allocation.generation && done.docker.ledger[g].allocation == r.allocation))
  }

  lemma OwnedStays(c: Setup, ledger: Ledger, ledger': Ledger, name: string)
    requires Owned(c, ledger, name) && Grows(ledger, ledger')
    requires forall g :: g in ledger && !ledger[g].destroyed && name == Name(c, g) ==> !ledger'[g].destroyed
    ensures Owned(c, ledger', name)
  {
    var g :| g in ledger && !ledger[g].destroyed && name == Name(c, g);
    assert g in ledger' && !ledger'[g].destroyed;
  }

  /** Recording a new generation. */
  lemma InsertKeeps(c: Setup, d: Docker, record: Record)
    requires DockerOk(c, d) && d.op == None
    requires record.allocation.generation !in d.ledger && record.allocation.generation > 0 && !record.destroyed
    requires MayInsert(d.ledger, record.allocation.generation)
    ensures var d' := d.(ledger := d.ledger[record.allocation.generation := record]);
            DockerOk(c, d') && Grows(d.ledger, d'.ledger)
  {
    assert forall g :: g in d.ledger ==> d.ledger[g].destroyed;
    assert d.containers == map[];
  }

  /** Changing the flags of a live generation's record, short of destroying it. */
  lemma MarkKeeps(c: Setup, d: Docker, g: nat, record: Record)
    requires DockerOk(c, d) && g in d.ledger && record.allocation == d.ledger[g].allocation
    requires record.destroyed == d.ledger[g].destroyed
    requires d.ledger[g].destroying ==> record.destroying
    ensures var d' := d.(ledger := d.ledger[g := record]); DockerOk(c, d') && Grows(d.ledger, d'.ledger)
  {
    var ledger' := d.ledger[g := record];
    forall name | name in d.containers ensures Owned(c, ledger', name) { OwnedStays(c, d.ledger, ledger', name); }
  }

  lemma GuardedSound(c: Setup, d: Docker, r: Request, env: Begins)
    requires DockerOk(c, d) && d.op == None && Accepts(c, r.allocation, env.safe)
    ensures Sound(c, d, r, Guarded(c, d, r, env))
  {
    hide LedgerOk, Owned;
    var g := r.allocation.generation;
    if g in d.ledger && d.ledger[g].allocation == r.allocation {
      MarkKeeps(c, d, g, d.ledger[g].(destroying := true));
    }
  }

  lemma BeginSound(c: Setup, d: Docker, r: Request, env: Begins)
    requires DockerOk(c, d) && d.op == None
    ensures Sound(c, d, r, BeginOp(c, d, r, env))
  {
    hide LedgerOk, Owned, Guarded, MayInsert;
    var a := r.allocation;
    if Accepts(c, a, env.safe) {
      if r.action == DoEnsure && a.generation !in d.ledger {
        if env.image.Some? && MayInsert(d.ledger, a.generation) {
          var record := Record(a, env.image.value, false, false, false);
          InsertKeeps(c, d, record);
          GuardedSound(c, d.(ledger := d.ledger[a.generation := record]), r, env);
        }
      } else {
        GuardedSound(c, d, r, env);
      }
    }
  }

  lemma CreateKeeps(c: Setup, d: Docker)
    requires DockerOk(c, d) && d.op.Some? && d.op.value.phase == Create
    ensures DockerOk(c, d.(containers := d.containers[Name(c, d.op.value.request.allocation.generation) := Idle]))
  {
    assert Owned(c, d.ledger, Name(c, d.op.value.request.allocation.generation));
  }

  lemma DestroyedKeeps(c: Setup, d: Docker)
    requires DockerOk(c, d) && d.op.Some? && d.op.value.phase == NoteDestroyed
    ensures var g := d.op.value.request.allocation.generation;
            var d' := d.(ledger := d.ledger[g := d.ledger[g].(destroyed := true)], op := None);
            DockerOk(c, d') && Grows(d.ledger, d'.ledger)
  {
    var g := d.op.value.request.allocation.generation;
    assert forall h :: h in d.ledger && h != g ==> d.ledger[h].destroyed;
    assert d.containers == map[];
  }

  /** Starting or stopping a container makes none appear. */
  lemma TurnedKeeps(c: Setup, d: Docker, name: string, power: Power, env: Acts)
    requires DockerOk(c, d) && (d.op.Some? ==> d.op.value.phase != NoteDestroyed)
    ensures DockerOk(c, Turned(d, name, power, env)) && Turned(d, name, power, env).containers.Keys == d.containers.Keys
    ensures Turned(d, name, power, env).ledger == d.ledger && Turned(d, name, power, env).op == d.op
  {
  }

  /** Looking changes nothing. */
  predicate Looks(phase: Phase) {
    phase == Known || phase == Look || phase == Look2 || phase == See || phase == Report || phase == LookDown
    || phase == Verify
  }

  lemma LookSound(c: Setup, d: Docker, env: Acts)
    requires DockerOk(c, d) && d.op.Some? && Looks(d.op.value.phase)
    ensures Sound(c, d, d.op.value.request, StepOp(c, d, env))
  {
    hide LedgerOk, Owned, Turned, Name, Validate;
  }

  lemma TurnSound(c: Setup, d: Docker, env: Acts)
    requires DockerOk(c, d) && d.op.Some?
    requires (d.op.value.phase == TurnOn || d.op.value.phase == TurnOff || d.op.value.phase.Poll?)
    ensures Sound(c, d, d.op.value.request, StepOp(c, d, env))
  {
    hide LedgerOk, Owned, Turned, Name, Inspected;
    var name := Name(c, d.op.value.request.allocation.generation);
    TurnedKeeps(c, d, name, Up, env);
    TurnedKeeps(c, d, name, Down, env);
  }

  lemma CommandSound(c: Setup, d: Docker, env: Acts)
    requires DockerOk(c, d) && d.op.Some? && (d.op.value.phase == Create || d.op.value.phase == Remove)
    ensures Sound(c, d, d.op.value.request, StepOp(c, d, env))
  {
    hide LedgerOk, Owned, Name;
    if d.op.value.phase == Create { CreateKeeps(c, d); }
  }

  lemma NoteSound(c: Setup, d: Docker, env: Acts)
    requires DockerOk(c, d) && d.op.Some? && (d.op.value.phase == NoteCreated || d.op.value.phase == NoteDestroyed)
    ensures Sound(c, d, d.op.value.request, StepOp(c, d, env))
  {
    hide LedgerOk, Owned, Name;
    var g := d.op.value.request.allocation.generation;
    if d.op.value.phase == NoteCreated {
      MarkKeeps(c, d, g, d.ledger[g].(created := true));
    } else {
      DestroyedKeeps(c, d);
    }
  }

  lemma StepSound(c: Setup, d: Docker, env: Acts)
    requires DockerOk(c, d) && d.op.Some?
    ensures Sound(c, d, d.op.value.request, StepOp(c, d, env))
  {
    hide DockerOk, StepOp, Sound;
    match d.op.value.phase
    case TurnOn => TurnSound(c, d, env);
    case TurnOff => TurnSound(c, d, env);
    case Poll(_) => TurnSound(c, d, env);
    case Create => CommandSound(c, d, env);
    case Remove => CommandSound(c, d, env);
    case NoteCreated => NoteSound(c, d, env);
    case NoteDestroyed => NoteSound(c, d, env);
    case _ => LookSound(c, d, env);
  }

  /** At most one container exists. */
  lemma AtMostOneContainer(c: Setup, d: Docker, n: string, m: string)
    requires DockerOk(c, d) && n in d.containers && m in d.containers
    ensures n == m
  {
    var g :| g in d.ledger && !d.ledger[g].destroyed && n == Name(c, g);
    var h :| h in d.ledger && !d.ledger[h].destroyed && m == Name(c, h);
  }

  lemma {:induction false} DecimalInjective(a: nat, b: nat)
    requires Decimal(a) == Decimal(b)
    ensures a == b
    decreases a
  {
    DecimalEnds(a);
    DecimalEnds(b);
    if a >= 10 && b >= 10 {
      assert Decimal(a)[..|Decimal(a)| - 1] == Decimal(a / 10) && Decimal(b)[..|Decimal(b)| - 1] == Decimal(b / 10);
      DecimalInjective(a / 10, b / 10);
    }
  }

  lemma DecimalEnds(n: nat)
    ensures |Decimal(n)| >= 1 && Decimal(n)[|Decimal(n)| - 1] == Decimal(n % 10)[0]
    ensures n >= 10 ==> |Decimal(n)| >= 2 && Decimal(n)[..|Decimal(n)| - 1] == Decimal(n / 10)
    ensures n < 10 ==> |Decimal(n)| == 1
  {
    if n >= 10 { DecimalEnds(n / 10); }
  }

  /** Containers of different generations have different names. */
  lemma NamesDiffer(c: Setup, g: nat, h: nat)
    requires Name(c, g) == Name(c, h)
    ensures g == h
  {
    var start := c.name + "-g";
    assert Name(c, g)[|start|..] == Decimal(g) && Name(c, h)[|start|..] == Decimal(h);
    DecimalInjective(g, h);
  }
}
