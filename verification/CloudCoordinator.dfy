/** The registry's operations, step by step on the stored record. What the environment decides is
    a parameter: how writes end, what the clock shows, and the provider's reply, or that the
    operation is cancelled while it waits for one. */
module CloudCoordinator {
  import opened Common
  import opened CloudTypes
  import opened CloudRegistry

  /** An operation that begins with `begun` and gets `reply` leaves `disk` and `result`. */
  ghost predicate Performs(begun: Begun, reply: Option<Reply>, write: Write, issued: set<Request>,
                           disk: Option<Binding>, issued': set<Request>, result: Result) {
    match begun
    case Ended(d, r) => disk == d && result == r && issued' == issued
    case Calling(d, call) =>
      && issued' == issued + {call.request}
      && match reply
         case None => disk == d && result == Err(Cancelled)
         case Some(answer) => Saved(disk, result) == Finish(d, call, answer, write)
  }

  /** What a write of `b` means: success, and only success, promises that just the returned record is
      stored, one revision on; failure means that nothing was stored, or just that record, and only
      a lost write and a record without room leave what was there for sure. */
  ghost predicate Stores(disk: Option<Binding>, b: Binding, write: Write, disk': Option<Binding>, result: Result) {
    var room := b.revision < U64_MAX;
    && (result.Ok? <==> write == Written && room)
    && (result.Ok? ==> disk' == Some(result.binding) && result.binding == b.(revision := b.revision + 1))
    && (result.Err? ==> result.error == if room then Io else Corrupt)
    && (disk' == disk || disk' == Some(b.(revision := b.revision + 1)))
    && (write == NotWritten || !room ==> disk' == disk)
    && (write != NotWritten && room ==> disk' == Some(b.(revision := b.revision + 1)))
  }

  /** That meaning leaves no room: the runs of the registry take it as the write. */
  lemma StoresIsSave(disk: Option<Binding>, b: Binding, write: Write, disk': Option<Binding>, result: Result)
    ensures Stores(disk, b, write, disk', result) <==> Saved(disk', result) == Save(disk, b, write)
  {
  }

  class Coordinator {
    const config: Config
    var disk: Option<Binding>
    ghost var issued: set<Request>

    constructor (config: Config)
      ensures this.config == config && disk == None && issued == {}
    {
      this.config, disk, issued := config, None, {};
    }

    /** What is written is what the next reader loads, if it passes the test. */
    method SaveRecord(b: Binding, write: Write) returns (result: Result)
      modifies this`disk
      ensures Stores(old(disk), b, write, disk, result)
      ensures result.Ok? && LoadOk(result.binding, config.key) ==> Load(disk, config.key) == Some(Some(result.binding))
    {
      if b.revision >= U64_MAX {
        return Err(Corrupt);
      }
      var next := b.(revision := b.revision + 1);
      match write
      case Written =>
        disk := Some(next);
        result := Ok(next);
      case NotWritten =>
        result := Err(Io);
      case WrittenUnreported =>
        disk := Some(next);
        result := Err(Io);
    }

    /** An observation that changes nothing is not a write. Over a record that is stored as it was,
        success means that the returned one is stored now, and its revision rises just with a change. */
    method SaveChanged(b: Binding, previous: Binding, write: Write) returns (result: Result)
      modifies this`disk
      ensures b == previous ==> result == Ok(b) && disk == old(disk)
      ensures b != previous ==> Stores(old(disk), b, write, disk, result)
      ensures old(disk) == Some(previous) && result.Ok? ==> disk == Some(result.binding)
      ensures old(disk) == Some(previous) && result.Ok? && b.revision == previous.revision ==>
                (result.binding.revision == previous.revision <==> b == previous)
    {
      if b == previous {
        return Ok(b);
      }
      result := SaveRecord(b, write);
    }

    method CheckActive(launch: Option<Launch>, now: nat) returns (error: Option<Error>)
      ensures error == LaunchErrorOf(launch, now)
    {
      if launch == None {
        return None;
      }
      if !launch.value.Valid() {
        return Some(Invalid);
      }
      error := if launch.value.expiresAt <= now then Some(ExpiredLaunch) else None;
    }

    /** Performs the pending intent of `binding`, or inspects. */
    method Drive(binding: Binding, now: nat, reply: Option<Reply>, write: Write) returns (result: Result)
      modifies this
      ensures Performs(BeginDrive(old(disk), binding, now), reply, write, old(issued), disk, issued, result)
    {
      var b := binding;
      if b.pending == Some(Ensure) || b.pending == Some(Start) {
        var error := CheckActive(b.allocation.launch, now);
        if error.Some? {
          return Err(error.value);
        }
      }
      var handle := b.KnownHandle();
      ghost var request;
      match (b.pending, handle) {
        case (Some(Ensure), _) => request := Request(DoEnsure, b.allocation, None);
        case (Some(Start), Some(h)) => request := Request(DoStart, b.allocation, Some(h));
        case (Some(Stop), Some(h)) => request := Request(DoStop, b.allocation, Some(h));
        case (Some(Destroy), Some(h)) => request := Request(DoDestroy, b.allocation, Some(h));
        case (None, h) => request := Request(DoInspect, b.allocation, h);
        case _ => return Err(Corrupt);
      }
      issued := issued + {request};
      if reply == None {
        return Err(Cancelled);
      }
      result := Merge(b, reply.value, write);
    }

    /** The reply to the call of `binding`'s intent, checked, merged and saved. */
    method Merge(binding: Binding, reply: Reply, write: Write) returns (result: Result)
      modifies this`disk
      ensures Saved(disk, result) == FinishDrive(old(disk), binding, reply, write)
    {
      var b, previous, handle := binding, binding, binding.KnownHandle();
      hide Stores, Validate, Save;
      var outcome := reply;
      if outcome.Answer? {
        var error := Validate(outcome.status, b.allocation, handle);
        if error.Some? {
          outcome := Failure(error.value);
        } else if outcome.status.state == Destroyed && b.pending != Some(Destroy) {
          outcome := Failure(NOT_FOUND);
        }
      }
      match outcome
      case Answer(status) =>
        var complete := match b.pending
                        case None => true
                        case Some(Ensure) => status.state != Provisioning
                        case Some(Start) => status.state == Running || status.state == Failed
                        case Some(Stop) => status.state == Stopped || status.state == Failed
                        case Some(Destroy) => status.state == Destroyed;
        b := b.(retired := status.state == Destroyed);
        b := b.(status := Some(status));
        if complete {
          b := b.(pending := None);
        }
        b := b.(lastError := None);
        result := SaveChanged(b, previous, write);
        StoresIsSave(old(disk), b, write, disk, result);
      case Failure(error) =>
        b := b.(lastError := Some(error));
        result := SaveChanged(b, previous, write);
        StoresIsSave(old(disk), b, write, disk, result);
        if result.Ok? {
          result := Err(Provider(error));
        }
    }

    method InspectForRecovery(binding: Binding, reply: Option<Reply>, write: Write) returns (result: Result)
      modifies this
      ensures Performs(BeginInspect(old(disk), binding), reply, write, old(issued), disk, issued, result)
    {
      var b := binding;
      var expected := b.KnownHandle();
      issued := issued + {Request(DoInspect, b.allocation, expected)};
      match reply
      case None => return Err(Cancelled);
      case Some(Failure(e)) => return Err(Provider(e));
      case Some(Answer(status)) =>
        var error := Validate(status, b.allocation, expected);
        if error.Some? {
          return Err(Provider(error.value));
        }
        if status.state == Destroyed {
          return Err(Provider(NOT_FOUND));
        }
        var previous := b;
        b := b.(status := Some(status));
        result := SaveChanged(b, previous, write);
    }

    /** Success means that this very record is stored, passes the test and is of this provider; the
        errors tell apart why there is no such record. */
    method LoadCurrent() returns (result: Result)
      ensures result.Ok? ==> disk == Some(result.binding) && result.binding.allocation.owner == config.key
      ensures result.Ok? ==> result.binding.allocation.provider == config.provider && result.binding.revision > 0
      ensures result.Ok? <==> config.Usable(disk)
      ensures result == Err(Fenced) <==> config.key.Valid() && disk == None
      ensures result == Err(Corrupt) <==> config.key.Valid() && disk.Some? && !LoadOk(disk.value, config.key)
      ensures result == Err(Invalid) <==> !config.key.Valid()
      ensures result.Err? ==> result.error in {Fenced, Corrupt, Invalid, Conflict}
    {
      if !config.key.Valid() {
        return Err(Invalid);
      }
      var loaded := Load(disk, config.key);
      if loaded == None {
        return Err(Corrupt);
      }
      if loaded.value == None {
        return Err(Fenced);
      }
      var b := loaded.value.value;
      result := if b.allocation.provider != config.provider then Err(Conflict) else Ok(b);
    }

    /** `ensure` and `ensure_with_initializer`. */
    method EnsureInner(spec: Spec, launching: Launching, clock: Clock, intent: Write, reply: Option<Reply>,
                       write: Write)
      returns (result: Result)
      modifies this
      ensures Performs(BeginEnsure(config, old(disk), spec, launching, clock, intent), reply, write, old(issued),
                       disk, issued, result)
    {
      hide LoadOk, Load, Spec.Valid, BeginDrive, Finish;
      if !spec.Valid() || !config.key.Valid() {
        return Err(Invalid);
      }
      var loaded := Load(disk, config.key);
      if loaded == None {
        return Err(Corrupt);
      }
      var before := loaded.value;
      var b: Binding;
      if before.Some? && !before.value.retired {
        b := before.value;
        if b.allocation.provider != config.provider || b.allocation.spec != spec {
          return Err(Conflict);
        }
        var error := CheckActive(b.allocation.launch, clock.entry);
        if error.Some? {
          return Err(error.value);
        }
        if !launching.NoInitializer? && b.allocation.launch == None {
          return Err(MissingLaunch);
        }
      } else {
        if before.Some? && before.value.allocation.generation >= U64_MAX {
          return Err(Corrupt);
        }
        var generation := if before.Some? then before.value.allocation.generation + 1 else 1;
        var launch: Option<Launch> := None;
        match launching {
          case NoInitializer =>
          case InitializerFailed(e) => return Err(e);
          case Initialized(l) =>
            launch := Some(l);
            var error := CheckActive(launch, clock.entry);
            if error.Some? {
              return Err(error.value);
            }
        }
        b := Binding(Allocation(config.key, generation, config.provider, spec, launch),
                     if before.Some? then before.value.revision else 0, None, Some(Ensure), None, false);
        var saved := SaveRecord(b, intent);
        if saved.Err? {
          return saved;
        }
        b := saved.binding;
      }
      result := Drive(b, clock.driving, reply, write);
    }

    method Command(handle: Handle, intent: Intent, clock: Clock, intentWrite: Write, reply: Option<Reply>, write: Write)
      returns (result: Result)
      modifies this
      ensures Performs(BeginCommand(config, old(disk), handle, intent, clock, intentWrite), reply, write, old(issued),
                       disk, issued, result)
    {
      var current := LoadCurrent();
      if current.Err? {
        return current;
      }
      var b := current.binding;
      if b.KnownHandle() != Some(handle) {
        return Err(Fenced);
      }
      if b.retired {
        return if intent == Destroy then Ok(b) else Err(Fenced);
      }
      if intent == Start {
        var error := CheckActive(b.allocation.launch, clock.entry);
        if error.Some? {
          return Err(error.value);
        }
      }
      if (intent == Start || intent == Stop) && !config.stopStart {
        return Err(Invalid);
      }
      if intent != Destroy && b.pending.Some? && b.pending.value != intent {
        return Err(Conflict);
      }
      b := b.(pending := Some(intent));
      b := b.(lastError := None);
      var saved := SaveRecord(b, intentWrite);
      if saved.Err? {
        return saved;
      }
      result := Drive(saved.binding, clock.driving, reply, write);
    }

    method Reconcile(clock: Clock, reply: Option<Reply>, write: Write) returns (result: Result)
      modifies this
      ensures Performs(BeginReconcile(config, old(disk), clock), reply, write, old(issued), disk, issued, result)
    {
      var current := LoadCurrent();
      if current.Err? {
        return current;
      }
      var b := current.binding;
      if b.retired {
        return Ok(b);
      }
      var error := CheckActive(b.allocation.launch, clock.entry);
      var expired := error == Some(ExpiredLaunch);
      if expired && (b.pending == Some(Ensure) || b.pending == Some(Start)) {
        result := InspectForRecovery(b, reply, write);
      } else {
        result := Drive(b, clock.driving, reply, write);
      }
    }

    method RecoverHandle(reply: Option<Reply>, write: Write) returns (result: Result)
      modifies this
      ensures Performs(BeginRecover(config, old(disk)), reply, write, old(issued), disk, issued, result)
    {
      var current := LoadCurrent();
      if current.Err? {
        return current;
      }
      if current.binding.retired {
        return Ok(current.binding);
      }
      result := InspectForRecovery(current.binding, reply, write);
    }
  }

  /** Such an operation is at most two steps of the runs: beginning, then the reply or vanishing. */
  lemma OperationIsSteps(c: Config, s: State, step: Step, reply: Option<Reply>, write: Write,
                         disk: Option<Binding>, issued: set<Request>, result: Result)
    requires s.call == None && !step.StepReply? && !step.StepVanish?
    requires Performs(Begin(c, s.disk, step), reply, write, s.issued, disk, issued, result)
    ensures var s1 := Apply(c, s, step);
            && issued == s1.issued
            && if s1.call == None then disk == s1.disk
               else disk == Apply(c, s1, if reply.Some? then StepReply(reply.value, write) else StepVanish).disk
  {
  }
}
