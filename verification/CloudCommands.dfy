/** What each operation of the registry asks the provider for, when it does so, and what comes of it
    when nothing goes wrong. */
module CloudCommands {
  import opened Common
  import opened CloudTypes
  import opened CloudRegistry
  import opened CloudRuns

  // ---- requests match intents ----

  /** The provider call that serves an intent; without one the machine is looked at. */
  predicate Serves(action: Action, pending: Option<Intent>) {
    && (action == DoEnsure <==> pending == Some(Ensure))
    && (action == DoStart <==> pending == Some(Start))
    && (action == DoStop <==> pending == Some(Stop))
    && (action == DoDestroy <==> pending == Some(Destroy))
    && (action == DoInspect <==> pending == None)
  }

  /** A waiting coordinator has asked for just what the stored record intends, or has looked at the
      machine. */
  predicate Matches(call: Call) {
    if call.driving then Serves(call.request.action, call.binding.pending) else call.request.action == DoInspect
  }

  lemma BeginMatches(c: Config, s: State, step: Step)
    requires Enabled(s, step) && !step.StepReply? && !step.StepVanish?
    ensures Begin(c, s.disk, step).Calling? ==> Matches(Begin(c, s.disk, step).call)
  {
    hide LoadOk, Validate, Save, Serves;
    forall disk, b, now ensures BeginDrive(disk, b, now).Calling? ==> Matches(BeginDrive(disk, b, now).call) {
      DriveMatches(disk, b, now);
    }
  }

  lemma DriveMatches(disk: Option<Binding>, b: Binding, now: nat)
    ensures BeginDrive(disk, b, now).Calling? ==> Matches(BeginDrive(disk, b, now).call)
  {
  }

  /** In every state of every run the request that is out serves the stored intent. */
  lemma {:induction false} RequestsMatchIntents(c: Config, run: seq<State>, steps: seq<Step>, k: nat)
    requires IsRun(c, run, steps) && k < |run| && run[k].call.Some?
    ensures Matches(run[k].call.value) && run[k].disk == Some(run[k].call.value.binding)
    ensures run[k].call.value.request.allocation == run[k].disk.value.allocation
    ensures run[k].call.value.request.action != DoEnsure ==>
              run[k].call.value.request.handle == run[k].disk.value.KnownHandle()
  {
    hide Begin, Finish, Matches;
    RunInv(c, run, steps, k);
    if k > 0 && !steps[k - 1].StepReply? && !steps[k - 1].StepVanish? {
      BeginMatches(c, run[k - 1], steps[k - 1]);
    }
  }

  /** A command that leaves a call out asks for just what it was for, of just this handle's machine,
      and its intent is stored by then. */
  lemma CommandAsks(c: Config, run: seq<State>, steps: seq<Step>, k: nat)
    requires IsRun(c, run, steps) && k < |steps| && steps[k].StepCommand? && run[k + 1].call.Some?
    ensures var r, intent := run[k + 1].call.value.request, steps[k].intent;
            && (intent == Start ==> r.action == DoStart) && (intent == Stop ==> r.action == DoStop)
            && (intent == Destroy ==> r.action == DoDestroy)
            && (intent != Ensure ==> r.handle == Some(steps[k].handle))
    ensures run[k + 1].disk.Some? && run[k + 1].disk.value.pending == Some(steps[k].intent)
    ensures run[k + 1].disk.value.KnownHandle() == Some(steps[k].handle) && run[k + 1].disk.value.lastError == None
  {
    RequestsMatchIntents(c, run, steps, k + 1);
    CommandStores(c, run[k].disk, steps[k].handle, steps[k].intent, steps[k].clock, steps[k].write);
  }

  lemma CommandStores(c: Config, disk: Option<Binding>, handle: Handle, intent: Intent, clock: Clock, write: Write)
    ensures var begun := BeginCommand(c, disk, handle, intent, clock, write);
            begun.Calling? ==>
              && disk.Some? && write == Written
              && begun.disk == Some(disk.value.(pending := Some(intent), lastError := None,
                                                revision := disk.value.revision + 1))
              && disk.value.KnownHandle() == Some(handle)
  {
    hide LoadOk, Validate;
  }

  /** Reconciling asks for what the stored intent wants, or only looks at the machine: when there is
      none, and when the launch has expired before the machine was up. */
  lemma ReconcileAsks(c: Config, run: seq<State>, steps: seq<Step>, k: nat)
    requires IsRun(c, run, steps) && k < |steps| && steps[k].StepReconcile? && run[k + 1].call.Some?
    ensures run[k].disk == run[k + 1].disk && run[k].disk.Some?
    ensures var b, r := run[k].disk.value, run[k + 1].call.value.request;
            if b.allocation.launch.Some? && b.allocation.launch.value.Expired(steps[k].clock.entry)
               && (b.pending == Some(Ensure) || b.pending == Some(Start))
            then r.action == DoInspect else Serves(r.action, b.pending)
  {
    RequestsMatchIntents(c, run, steps, k + 1);
    hide LoadOk, Validate, Serves;
  }

  // ---- intents are cleared by their own answers ----

  /** What settles an intent. */
  predicate Settles(intent: Intent, state: MachineState) {
    match intent
    case Ensure => state != Provisioning && state != Destroyed
    case Start => state == Running || state == Failed
    case Stop => state == Stopped || state == Failed
    case Destroy => state == Destroyed
  }

  /** A stored intent goes away only by a valid answer to the very call that serves it, of a machine
      in a state that settles it, or by a command to destroy that takes its place. */
  lemma IntentsAreServed(c: Config, run: seq<State>, steps: seq<Step>, k: nat)
    requires IsRun(c, run, steps) && k < |steps| && run[k].disk.Some? && run[k].disk.value.pending.Some?
    requires run[k + 1].disk.Some? && run[k + 1].disk.value.pending != run[k].disk.value.pending
    ensures var b, b', intent := run[k].disk.value, run[k + 1].disk.value, run[k].disk.value.pending.value;
            || (steps[k].StepCommand? && steps[k].intent == Destroy && b'.pending == Some(Destroy))
            || (&& steps[k].StepReply? && steps[k].reply.Answer? && run[k].call.Some?
                && Serves(run[k].call.value.request.action, Some(intent))
                && run[k].call.value.request.allocation == b.allocation
                && Settles(intent, steps[k].reply.status.state)
                && Validate(steps[k].reply.status, b.allocation, b.KnownHandle()) == None
                && b'.pending == None && b'.status == Some(steps[k].reply.status))
  {
    RunInv(c, run, steps, k);
    var s, step := run[k], steps[k];
    if step.StepReply? {
      RequestsMatchIntents(c, run, steps, k);
      ReplySettles(s.disk, s.call.value, step.reply, step.write);
    } else if !step.StepVanish? {
      BeginKeepsIntent(c, s, step);
    }
  }

  lemma ReplySettles(disk: Option<Binding>, call: Call, reply: Reply, write: Write)
    requires disk == Some(call.binding) && call.binding.pending.Some?
    ensures var disk' := Finish(disk, call, reply, write).disk;
            && disk'.Some?
            && (disk'.value.pending != call.binding.pending ==>
                  && call.driving && reply.Answer? && Settles(call.binding.pending.value, reply.status.state)
                  && Validate(reply.status, call.binding.allocation, call.binding.KnownHandle()) == None
                  && disk'.value.pending == None && disk'.value.status == Some(reply.status))
  {
    hide Validate;
  }

  lemma BeginKeepsIntent(c: Config, s: State, step: Step)
    requires Inv(c, s) && Enabled(s, step) && !step.StepReply? && !step.StepVanish?
    requires s.disk.Some? && s.disk.value.pending.Some?
    ensures var disk' := Begin(c, s.disk, step).disk;
            && disk'.Some?
            && (disk'.value.pending != s.disk.value.pending ==>
                  step.StepCommand? && step.intent == Destroy && disk'.value.pending == Some(Destroy))
  {
    hide Validate;
    match step
    case StepEnsure(_, _, _, _) =>
    case StepCommand(_, _, _, _) =>
    case _ =>
  }

  // ---- what comes of an operation that nothing disturbs ----

  /** The exact conditions for a command to go out, its write being durable. */
  lemma CommandGoesOut(c: Config, b: Binding, handle: Handle, intent: Intent, clock: Clock)
    requires c.Valid() && LoadOk(b, c.key) && intent != Ensure
    ensures BeginCommand(c, Some(b), handle, intent, clock, Written).Calling? <==>
            && b.allocation.provider == c.provider && b.KnownHandle() == Some(handle) && !b.retired
            && (intent == Start || intent == Stop ==> c.stopStart)
            && (intent == Start ==> LaunchErrorOf(b.allocation.launch, clock.entry) == None)
            && (intent == Start ==> LaunchErrorOf(b.allocation.launch, clock.driving) == None)
            && (intent == Destroy || b.pending == None || b.pending == Some(intent))
            && b.revision < U64_MAX
  {
    hide Validate;
  }

  /** An undisturbed command whose machine reaches the state it is for settles the record there. */
  lemma CommandCompletes(c: Config, b: Binding, handle: Handle, intent: Intent, clock: Clock, status: Status)
    requires BeginCommand(c, Some(b), handle, intent, clock, Written).Calling? && intent != Ensure
    requires Validate(status, b.allocation, Some(handle)) == None && Settles(intent, status.state)
    requires b.revision + 1 < U64_MAX
    ensures var begun := BeginCommand(c, Some(b), handle, intent, clock, Written);
            Finish(begun.disk, begun.call, Answer(status), Written) ==
            var settled := b.(pending := None, lastError := None, status := Some(status),
                              retired := status.state == Destroyed, revision := b.revision + 2);
            Saved(Some(settled), Ok(settled))
  {
    hide Validate, LoadOk;
  }

  /** A failed call leaves the intent stored, to be tried again, with the error beside it. */
  lemma FailedCallIsKept(disk: Option<Binding>, call: Call, e: ProviderError)
    requires disk == Some(call.binding) && call.driving && call.binding.revision < U64_MAX
    requires call.binding.lastError != Some(e)
    ensures var failed := call.binding.(lastError := Some(e), revision := call.binding.revision + 1);
            Finish(disk, call, Failure(e), Written) == Saved(Some(failed), Err(Provider(e)))
  {
  }

  /** The record of a new generation goes out for a machine exactly when specification and launch
      are in order. */
  lemma EnsureGoesOut(c: Config, disk: Option<Binding>, spec: Spec, launching: Launching, clock: Clock)
    requires c.Valid() && (disk.Some? ==> LoadOk(disk.value, c.key) && disk.value.retired)
    ensures BeginEnsure(c, disk, spec, launching, clock, Written).Calling? <==>
            && spec.Valid() && NewLaunch(launching, clock.entry) == None
            && (launching.Initialized? ==> LaunchError(launching.launch, clock.driving) == None)
            && (disk.Some? ==> disk.value.allocation.generation < U64_MAX && disk.value.revision < U64_MAX)
    ensures BeginEnsure(c, disk, spec, launching, clock, Written).Calling? ==>
              var begun, b := BeginEnsure(c, disk, spec, launching, clock, Written), Fresh(c, disk, spec, launching);
              && begun.disk == Some(b.(revision := b.revision + 1))
              && begun.call == Call(begun.disk.value, Request(DoEnsure, b.allocation, None), true)
  {
    hide Validate;
  }

  /** For a live record, `ensure` serves the stored intent again, exactly when it asks for what is
      stored and the launch is in order. */
  lemma EnsureOfLiveGoesOut(c: Config, b: Binding, spec: Spec, launching: Launching, clock: Clock, write: Write)
    requires c.Valid() && LoadOk(b, c.key) && !b.retired
    ensures BeginEnsure(c, Some(b), spec, launching, clock, write).Calling? <==>
            && b.allocation.provider == c.provider && b.allocation.spec == spec
            && LaunchErrorOf(b.allocation.launch, clock.entry) == None
            && (launching == NoInitializer || b.allocation.launch.Some?)
            && (b.pending == Some(Ensure) || b.pending == Some(Start) ==>
                  LaunchErrorOf(b.allocation.launch, clock.driving) == None)
    ensures var begun := BeginEnsure(c, Some(b), spec, launching, clock, write);
            begun.disk == Some(b) && (begun.Calling? ==> Serves(begun.call.request.action, b.pending))
  {
    hide Validate;
  }

  /** An undisturbed `ensure` for a workspace without a live machine ends with the new generation's
      machine recorded, settled as soon as it has left provisioning. */
  lemma EnsureCompletes(c: Config, disk: Option<Binding>, spec: Spec, launching: Launching, clock: Clock,
                        status: Status)
    requires c.Valid() && (disk.Some? ==> LoadOk(disk.value, c.key) && disk.value.retired)
    requires BeginEnsure(c, disk, spec, launching, clock, Written).Calling?
    requires var b := Fresh(c, disk, spec, launching);
             && Validate(status, b.allocation, None) == None && status.state != Destroyed && b.revision + 1 < U64_MAX
    ensures var begun, b := BeginEnsure(c, disk, spec, launching, clock, Written), Fresh(c, disk, spec, launching);
            Finish(begun.disk, begun.call, Answer(status), Written) ==
            var settled := b.(status := Some(status), revision := b.revision + 2,
                              pending := if status.state == Provisioning then Some(Ensure) else None);
            Saved(Some(settled), Ok(settled))
  {
    EnsureGoesOut(c, disk, spec, launching, clock);
    hide Validate, LoadOk;
  }

  /** A reconcile calls the provider unless the record is retired, or another provider's, or its launch
      has run out between the two looks at the clock. */
  lemma ReconcileGoesOut(c: Config, b: Binding, clock: Clock)
    requires c.Valid() && LoadOk(b, c.key)
    ensures BeginReconcile(c, Some(b), clock).Calling? <==>
            && b.allocation.provider == c.provider && !b.retired
            && (b.allocation.launch.Some? && (b.pending == Some(Ensure) || b.pending == Some(Start)) ==>
                  b.allocation.launch.value.expiresAt <= clock.entry
                    || b.allocation.launch.value.expiresAt > clock.driving)
    ensures BeginReconcile(c, Some(b), clock).disk == Some(b)
  {
    hide Validate;
  }

  /** `recover_handle` asks for the machine of every record of its own that is not retired. */
  lemma RecoverGoesOut(c: Config, b: Binding)
    requires c.Valid() && LoadOk(b, c.key)
    ensures BeginRecover(c, Some(b)) ==
            if b.allocation.provider != c.provider then Ended(Some(b), Err(Conflict))
            else if b.retired then Ended(Some(b), Ok(b))
            else Calling(Some(b), Call(b, Request(DoInspect, b.allocation, b.KnownHandle()), false))
  {
    hide Validate;
  }

  /** What an inspection finds is recorded, and the intent and the error stay, exactly if it is about
      the machine of this record and that is still there; otherwise the record stays. */
  lemma InspectionIsRecorded(b: Binding, request: Request, reply: Reply)
    requires b.revision < U64_MAX
    ensures var end, found := Finish(Some(b), Call(b, request, false), reply, Written),
                              reply.Answer? && Validate(reply.status, b.allocation, b.KnownHandle()) == None
                              && reply.status.state != Destroyed;
            && (end.result.Ok? <==> found)
            && (!found ==> end.disk == Some(b) && end.result.error.Provider?)
            && (found ==> end.disk == Some(end.result.binding) && end.result.binding.status == Some(reply.status)
                          && end.result.binding
                               == b.(status := Some(reply.status), revision := end.result.binding.revision)
                          && (end.result.binding.revision == b.revision <==> b.status == Some(reply.status)))
  {
    hide Validate;
  }

  /** A settled record is refreshed by a reconcile; that its machine has gone is kept as an error,
      never as a destruction. */
  lemma SettledIsRefreshed(b: Binding, request: Request, status: Status)
    requires b.pending == None && b.revision < U64_MAX && Validate(status, b.allocation, b.KnownHandle()) == None
    ensures var end, b' := Finish(Some(b), Call(b, request, true), Answer(status), Written),
                           if status.state == Destroyed then b.(lastError := Some(NOT_FOUND))
                           else b.(status := Some(status), lastError := None, retired := false);
            && end.disk == Some(if b' == b then b else b'.(revision := b.revision + 1))
            && end.result == if status.state == Destroyed then Err(Provider(NOT_FOUND)) else Ok(end.disk.value)
  {
    hide Validate;
  }
}
