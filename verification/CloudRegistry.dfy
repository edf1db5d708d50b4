/** The durable registry of one workspace: intents are written ahead of every provider call, one
    coordinator at a time works under a file lock and may vanish at any await. */
module CloudRegistry {
  import opened Common
  import opened CloudTypes

  datatype Error =
    | Invalid | MissingLaunch | ExpiredLaunch | Busy | Conflict | Fenced | Corrupt | Io
    | Provider(error: ProviderError) | Cancelled

  datatype Result = Ok(binding: Binding) | Err(error: Error)

  /** A provider call. */
  datatype Action = DoEnsure | DoStart | DoStop | DoDestroy | DoInspect
  datatype Request = Request(action: Action, allocation: Allocation, handle: Option<Handle>)
  datatype Reply = Answer(status: Status) | Failure(error: ProviderError)

  /** How a write ends: durably, not at all, or durably but with an error reported. */
  datatype Write = Written | NotWritten | WrittenUnreported

  /** What the deployment fixes: the workspace, the provider's name and whether it can stop. */
  datatype Config = Config(key: Key, provider: string, stopStart: bool)
  {
    predicate Valid() { key.Valid() && ValidId(provider) }

    /** There is a record, it is sound, and this deployment may work on it. */
    predicate Usable(disk: Option<Binding>) {
      key.Valid() && disk.Some? && LoadOk(disk.value, key) && disk.value.allocation.provider == provider
    }
  }

  // ---- saving ----

  datatype Saved = Saved(disk: Option<Binding>, result: Result)

  /** The revision rises with every write; a record without room for one more is corrupt. */
  function Save(disk: Option<Binding>, b: Binding, write: Write): Saved {
    if b.revision >= U64_MAX then Saved(disk, Err(Corrupt))
    else
      var next := b.(revision := b.revision + 1);
      match write
      case Written => Saved(Some(next), Ok(next))
      case NotWritten => Saved(disk, Err(Io))
      case WrittenUnreported => Saved(Some(next), Err(Io))
  }

  function SaveIfChanged(disk: Option<Binding>, b: Binding, previous: Binding, write: Write): Saved {
    if b == previous then Saved(disk, Ok(b)) else Save(disk, b, write)
  }

  /** Missing, corrupt or present. */
  function Load(disk: Option<Binding>, key: Key): (loaded: Option<Option<Binding>>)
    ensures loaded.Some? && loaded.value.Some? ==> LoadOk(loaded.value.value, key)
  {
    if disk == None then Some(None) else if LoadOk(disk.value, key) then Some(disk) else None
  }

  // ---- the part before a provider call ----

  /** The binding in the coordinator's hands while it waits, and what the reply is for. */
  datatype Call = Call(binding: Binding, request: Request, driving: bool)

  datatype Begun = Ended(disk: Option<Binding>, result: Result) | Calling(disk: Option<Binding>, call: Call)

  function LaunchError(l: Launch, now: nat): Option<Error> {
    if !l.Valid() then Some(Invalid) else if l.Expired(now) then Some(ExpiredLaunch) else None
  }

  function LaunchErrorOf(l: Option<Launch>, now: nat): Option<Error> {
    if l.Some? then LaunchError(l.value, now) else None
  }

  function BeginDrive(disk: Option<Binding>, b: Binding, now: nat): Begun {
    var handle := b.KnownHandle();
    var expired := LaunchErrorOf(b.allocation.launch, now);
    if (b.pending == Some(Ensure) || b.pending == Some(Start)) && expired.Some? then Ended(disk, Err(expired.value))
    else if b.pending == Some(Ensure) then Calling(disk, Call(b, Request(DoEnsure, b.allocation, None), true))
    else if b.pending == None then Calling(disk, Call(b, Request(DoInspect, b.allocation, handle), true))
    else if handle == None then Ended(disk, Err(Corrupt))
    else
      var action := match b.pending.value case Start => DoStart case Stop => DoStop case _ => DoDestroy;
      Calling(disk, Call(b, Request(action, b.allocation, handle), true))
  }

  function BeginInspect(disk: Option<Binding>, b: Binding): Begun {
    Calling(disk, Call(b, Request(DoInspect, b.allocation, b.KnownHandle()), false))
  }

  function AfterSave(saved: Saved, now: nat): Begun {
    match saved.result
    case Err(e) => Ended(saved.disk, Err(e))
    case Ok(b) => BeginDrive(saved.disk, b, now)
  }

  /** What an initializer came up with. */
  datatype Launching = NoInitializer | InitializerFailed(error: Error) | Initialized(launch: Launch)

  /** The launch of a new allocation, or the error that prevents it. */
  function NewLaunch(launching: Launching, now: nat): Option<Error> {
    match launching
    case NoInitializer => None
    case InitializerFailed(e) => Some(e)
    case Initialized(l) => LaunchError(l, now)
  }

  /** The time read on entry, and again when the provider is about to be called. */
  datatype Clock = Clock(entry: nat, driving: nat)

  function BeginEnsure(c: Config, disk: Option<Binding>, spec: Spec, launching: Launching, clock: Clock,
                       write: Write): Begun {
    var before := Load(disk, c.key);
    if !spec.Valid() || !c.key.Valid() then Ended(disk, Err(Invalid))
    else if before == None then Ended(disk, Err(Corrupt))
    else if before.value.Some? && !before.value.value.retired then
      var b := before.value.value;
      if b.allocation.provider != c.provider || b.allocation.spec != spec then Ended(disk, Err(Conflict))
      else if LaunchErrorOf(b.allocation.launch, clock.entry).Some? then
        Ended(disk, Err(LaunchErrorOf(b.allocation.launch, clock.entry).value))
      else if launching != NoInitializer && b.allocation.launch == None then Ended(disk, Err(MissingLaunch))
      else BeginDrive(disk, b, clock.driving)
    else if before.value.Some? && before.value.value.allocation.generation >= U64_MAX then Ended(disk, Err(Corrupt))
    else if NewLaunch(launching, clock.entry).Some? then Ended(disk, Err(NewLaunch(launching, clock.entry).value))
    else
      var generation := if before.value.Some? then before.value.value.allocation.generation + 1 else 1;
      var launch := if launching.Initialized? then Some(launching.launch) else None;
      var revision := if before.value.Some? then before.value.value.revision else 0;
      var b := Binding(Allocation(c.key, generation, c.provider, spec, launch),
                       revision, None, Some(Ensure), None, false);
      AfterSave(Save(disk, b, write), clock.driving)
  }

  /** The current record, or why there is none to work on. */
  function Current(c: Config, disk: Option<Binding>): Result {
    var loaded := Load(disk, c.key);
    if !c.key.Valid() then Err(Invalid)
    else if loaded == None then Err(Corrupt)
    else if loaded.value == None then Err(Fenced)
    else if loaded.value.value.allocation.provider != c.provider then Err(Conflict)
    else Ok(loaded.value.value)
  }

  function BeginCommand(c: Config, disk: Option<Binding>, handle: Handle, intent: Intent, clock: Clock,
                        write: Write): Begun {
    match Current(c, disk)
    case Err(e) => Ended(disk, Err(e))
    case Ok(b) =>
      if b.KnownHandle() != Some(handle) then Ended(disk, Err(Fenced))
      else if b.retired then Ended(disk, if intent == Destroy then Ok(b) else Err(Fenced))
      else if intent == Start && LaunchErrorOf(b.allocation.launch, clock.entry).Some? then
        Ended(disk, Err(LaunchErrorOf(b.allocation.launch, clock.entry).value))
      else if (intent == Start || intent == Stop) && !c.stopStart then Ended(disk, Err(Invalid))
      else if intent != Destroy && b.pending.Some? && b.pending != Some(intent) then Ended(disk, Err(Conflict))
      else AfterSave(Save(disk, b.(pending := Some(intent), lastError := None), write), clock.driving)
  }

  function BeginReconcile(c: Config, disk: Option<Binding>, clock: Clock): Begun {
    match Current(c, disk)
    case Err(e) => Ended(disk, Err(e))
    case Ok(b) =>
      if b.retired then Ended(disk, Ok(b))
      else if b.allocation.launch.Some? && b.allocation.launch.value.Expired(clock.entry)
              && (b.pending == Some(Ensure) || b.pending == Some(Start))
      then BeginInspect(disk, b)
      else BeginDrive(disk, b, clock.driving)
  }

  function BeginRecover(c: Config, disk: Option<Binding>): Begun {
    match Current(c, disk)
    case Err(e) => Ended(disk, Err(e))
    case Ok(b) => if b.retired then Ended(disk, Ok(b)) else BeginInspect(disk, b)
  }

  // ---- the part after it ----

  const NOT_FOUND := ProviderError(NotFound, false)

  /** The status that counts, or the error: destruction is never inferred from an inspection. */
  function Outcome(b: Binding, reply: Reply): Reply {
    match reply
    case Failure(e) => Failure(e)
    case Answer(s) =>
      var error := Validate(s, b.allocation, b.KnownHandle());
      if error.Some? then Failure(error.value)
      else if s.state == Destroyed && b.pending != Some(Destroy) then Failure(NOT_FOUND)
      else Answer(s)
  }

  predicate Complete(pending: Option<Intent>, state: MachineState) {
    match pending
    case None => true
    case Some(Ensure) => state != Provisioning
    case Some(Start) => state == Running || state == Failed
    case Some(Stop) => state == Stopped || state == Failed
    case Some(Destroy) => state == Destroyed
  }

  function Driven(b: Binding, outcome: Reply): Binding {
    match outcome
    case Answer(s) =>
      b.(retired := s.state == Destroyed, status := Some(s), lastError := None,
         pending := if Complete(b.pending, s.state) then None else b.pending)
    case Failure(e) => b.(lastError := Some(e))
  }

  function FinishDrive(disk: Option<Binding>, b: Binding, reply: Reply, write: Write): Saved {
    var outcome := Outcome(b, reply);
    var saved := SaveIfChanged(disk, Driven(b, outcome), b, write);
    if outcome.Failure? && saved.result.Ok? then Saved(saved.disk, Err(Provider(outcome.error))) else saved
  }

  function FinishInspect(disk: Option<Binding>, b: Binding, reply: Reply, write: Write): Saved {
    match reply
    case Failure(e) => Saved(disk, Err(Provider(e)))
    case Answer(s) =>
      var error := Validate(s, b.allocation, b.KnownHandle());
      if error.Some? then Saved(disk, Err(Provider(error.value)))
      else if s.state == Destroyed then Saved(disk, Err(Provider(NOT_FOUND)))
      else SaveIfChanged(disk, b.(status := Some(s)), b, write)
  }

  function Finish(disk: Option<Binding>, call: Call, reply: Reply, write: Write): Saved {
    if call.driving then FinishDrive(disk, call.binding, reply, write)
    else FinishInspect(disk, call.binding, reply, write)
  }

  // ---- runs of any number of coordinators ----

  /** `issued` holds every request ever made; `writes` counts the durable writes. */
  datatype State = State(disk: Option<Binding>, call: Option<Call>, issued: set<Request>, writes: nat)

  datatype Step =
    | StepEnsure(spec: Spec, launching: Launching, clock: Clock, write: Write)
    | StepCommand(handle: Handle, intent: Intent, clock: Clock, write: Write)
    | StepReconcile(clock: Clock)
    | StepRecover
    | StepReply(reply: Reply, write: Write)
    | StepVanish  // the coordinator is cancelled or crashes while it waits

  predicate Enabled(s: State, step: Step) {
    match step
    case StepReply(_, _) => s.call.Some?
    case StepVanish => s.call.Some?
    case _ => s.call == None  // otherwise the lock is taken and the caller is told so
  }

  function Begin(c: Config, disk: Option<Binding>, step: Step): Begun
    requires !step.StepReply? && !step.StepVanish?
  {
    match step
    case StepEnsure(spec, launching, clock, write) => BeginEnsure(c, disk, spec, launching, clock, write)
    case StepCommand(handle, intent, clock, write) => BeginCommand(c, disk, handle, intent, clock, write)
    case StepReconcile(clock) => BeginReconcile(c, disk, clock)
    case StepRecover => BeginRecover(c, disk)
  }

  function Count(writes: nat, disk: Option<Binding>, disk': Option<Binding>): nat {
    if disk' == disk then writes else writes + 1
  }

  function Apply(c: Config, s: State, step: Step): State
    requires Enabled(s, step)
  {
    match step
    case StepVanish => s.(call := None)
    case StepReply(reply, write) =>
      var saved := Finish(s.disk, s.call.value, reply, write);
      State(saved.disk, None, s.issued, Count(s.writes, s.disk, saved.disk))
    case _ =>
      match Begin(c, s.disk, step)
      case Ended(disk, _) => State(disk, None, s.issued, Count(s.writes, s.disk, disk))
      case Calling(disk, call) => State(disk, Some(call), s.issued + {call.request}, Count(s.writes, s.disk, disk))
  }
}
