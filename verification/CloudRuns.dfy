/** What the registry keeps over every run, whatever providers reply and wherever coordinators
    vanish. */
module CloudRuns {
  import opened Common
  import opened CloudTypes
  import opened CloudRegistry

  /** What a waiting coordinator holds is what is stored, and it asks for just that. */
  predicate CallOk(disk: Option<Binding>, call: Call) {
    var b := call.binding;
    && disk == Some(b) && !b.retired
    && call.request.allocation == b.allocation
    && (call.request.action == DoDestroy ==> b.pending == Some(Destroy))
    && (call.driving && b.pending == Some(Destroy) ==> call.request.action == DoDestroy)
    && (call.request.handle == if call.request.action == DoEnsure then None else b.KnownHandle())
    && (call.request.action == DoStart || call.request.action == DoStop || call.request.action == DoDestroy
        ==> b.status.Some?)
  }

  /** Every request was made for the stored generation's allocation or an older generation. */
  predicate IssuedOk(disk: Option<Binding>, r: Request) {
    && disk.Some? && 0 < r.allocation.generation <= disk.value.allocation.generation
    && (r.allocation.generation == disk.value.allocation.generation ==> r.allocation == disk.value.allocation)
  }

  /** What is stored passes the test of loading it, and its revision is the number of writes. */
  predicate DiskOk(c: Config, disk: Option<Binding>, writes: nat) {
    if disk == None then writes == 0 else LoadOk(disk.value, c.key) && disk.value.revision == writes
  }

  predicate Inv(c: Config, s: State) {
    && c.Valid()
    && DiskOk(c, s.disk, s.writes)
    && (s.call.Some? ==> CallOk(s.disk, s.call.value))
    && (forall r :: r in s.issued ==> IssuedOk(s.disk, r))
  }

  function Init(): State { State(None, None, {}, 0) }

  /** One durable write: the next revision, in the same generation or the one after a retired one;
      within a generation the allocation is fixed, a known handle stays and a destroy intent only
      gives way to retirement. */
  predicate Writes(disk: Option<Binding>, disk': Option<Binding>) {
    && disk'.Some?
    && (disk == None ==> disk'.value.revision == 1 && disk'.value.allocation.generation == 1 && !disk'.value.retired)
    && (disk.Some? ==>
          var b, b' := disk.value, disk'.value;
          && b'.revision == b.revision + 1
          && (if b'.allocation.generation == b.allocation.generation then SameGeneration(b, b')
              else b.retired && !b'.retired && b'.allocation.generation == b.allocation.generation + 1))
  }

  predicate SameGeneration(b: Binding, b': Binding) {
    && b'.allocation == b.allocation && !b.retired
    && (b.status.Some? ==> b'.KnownHandle() == b.KnownHandle())
    && (b.pending == Some(Destroy) ==> b'.retired || b'.pending == Some(Destroy))
  }

  predicate Changes(disk: Option<Binding>, disk': Option<Binding>) { disk' == disk || Writes(disk, disk') }

  lemma SaveChanges(c: Config, disk: Option<Binding>, b: Binding, write: Write, writes: nat)
    requires DiskOk(c, disk, writes) && b.revision == writes
    requires LoadOk(b.(revision := b.revision + 1), c.key) && Writes(disk, Some(b.(revision := b.revision + 1)))
    ensures var saved := Save(disk, b, write);
            && Changes(disk, saved.disk) && DiskOk(c, saved.disk, Count(writes, disk, saved.disk))
            && (saved.result.Ok? ==>
                  saved.disk == Some(saved.result.binding) && saved.disk == Some(b.(revision := b.revision + 1)))
  {
  }

  /** The part of a step before the provider is called. */
  predicate BegunOk(c: Config, disk: Option<Binding>, writes: nat, begun: Begun) {
    && Changes(disk, begun.disk) && DiskOk(c, begun.disk, Count(writes, disk, begun.disk))
    && (begun.Calling? ==> CallOk(begun.disk, begun.call))
  }

  lemma DriveBegins(disk: Option<Binding>, b: Binding, now: nat)
    requires disk == Some(b) && !b.retired
    ensures var begun := BeginDrive(disk, b, now); begun.disk == disk && (begun.Calling? ==> CallOk(disk, begun.call))
  {
  }

  lemma EnsureBegins(c: Config, disk: Option<Binding>, writes: nat, spec: Spec, launching: Launching, clock: Clock,
                     write: Write)
    requires c.Valid() && DiskOk(c, disk, writes)
    ensures BegunOk(c, disk, writes, BeginEnsure(c, disk, spec, launching, clock, write))
  {
    hide BeginDrive, CallOk, Validate, AllocationValid, Writes, Save;
    if disk.Some? && !disk.value.retired {
      DriveBegins(disk, disk.value, clock.driving);
    } else {
      var b := Fresh(c, disk, spec, launching);
      FreshLoads(c, disk, writes, spec, launching, clock.entry);
      if spec.Valid() && NewLaunch(launching, clock.entry) == None && b.allocation.generation <= U64_MAX {
        SaveChanges(c, disk, b, write, writes);
        var saved := Save(disk, b, write);
        if saved.result.Ok? { DriveBegins(saved.disk, saved.result.binding, clock.driving); }
      }
    }
  }

  /** The record of a new generation. */
  function Fresh(c: Config, disk: Option<Binding>, spec: Spec, launching: Launching): Binding {
    var generation := if disk.Some? then disk.value.allocation.generation + 1 else 1;
    Binding(Allocation(c.key, generation, c.provider, spec,
                       if launching.Initialized? then Some(launching.launch) else None),
            if disk.Some? then disk.value.revision else 0, None, Some(Ensure), None, false)
  }

  lemma FreshLoads(c: Config, disk: Option<Binding>, writes: nat, spec: Spec, launching: Launching, now: nat)
    requires c.Valid() && DiskOk(c, disk, writes) && (disk.Some? ==> disk.value.retired)
    ensures var b := Fresh(c, disk, spec, launching);
            && b.revision == writes && Writes(disk, Some(b.(revision := b.revision + 1)))
            && (spec.Valid() && NewLaunch(launching, now) == None ==> LoadOk(b.(revision := b.revision + 1), c.key))
  {
  }

  lemma CommandBegins(c: Config, disk: Option<Binding>, writes: nat, handle: Handle, intent: Intent, clock: Clock,
                      write: Write)
    requires c.Valid() && DiskOk(c, disk, writes)
    ensures BegunOk(c, disk, writes, BeginCommand(c, disk, handle, intent, clock, write))
  {
    hide BeginDrive, CallOk, Validate, Save;
    if disk.Some? && disk.value.KnownHandle() == Some(handle) && !disk.value.retired
       && (intent == Destroy || disk.value.pending == None || disk.value.pending == Some(intent)) {
      var b := disk.value.(pending := Some(intent), lastError := None);
      SaveChanges(c, disk, b, write, writes);
      var saved := Save(disk, b, write);
      if saved.result.Ok? { DriveBegins(saved.disk, saved.result.binding, clock.driving); }
    }
  }

  lemma OthersBegin(c: Config, disk: Option<Binding>, writes: nat, clock: Clock)
    requires c.Valid() && DiskOk(c, disk, writes)
    ensures BegunOk(c, disk, writes, BeginReconcile(c, disk, clock)) && BegunOk(c, disk, writes, BeginRecover(c, disk))
  {
    if disk.Some? && !disk.value.retired {
      DriveBegins(disk, disk.value, clock.driving);
    }
  }

  /** A reply that is saved passes the test, too. */
  lemma DrivenLoads(c: Config, b: Binding, reply: Reply)
    requires LoadOk(b, c.key) && !b.retired
    ensures LoadOk(Driven(b, Outcome(b, reply)), c.key) && SameGeneration(b, Driven(b, Outcome(b, reply)))
    ensures Driven(b, Outcome(b, reply)).revision == b.revision
    ensures Driven(b, Outcome(b, reply)).retired ==>
              reply.Answer? && reply.status.state == Destroyed && b.pending == Some(Destroy)
              && Validate(reply.status, b.allocation, b.KnownHandle()) == None
  {
  }

  lemma NextRevisionLoads(c: Config, b: Binding, b': Binding)
    requires LoadOk(b', c.key) && SameGeneration(b, b') && b'.revision == b.revision
    ensures LoadOk(b'.(revision := b'.revision + 1), c.key) && Writes(Some(b), Some(b'.(revision := b'.revision + 1)))
  {
  }

  lemma ReplyChanges(c: Config, disk: Option<Binding>, call: Call, writes: nat, reply: Reply, write: Write)
    requires c.Valid() && DiskOk(c, disk, writes) && CallOk(disk, call)
    ensures var saved := Finish(disk, call, reply, write);
            Changes(disk, saved.disk) && DiskOk(c, saved.disk, Count(writes, disk, saved.disk))
  {
    var b := call.binding;
    if call.driving {
      hide Outcome, Driven, LoadOk, SameGeneration, Save, Validate;
      var b' := Driven(b, Outcome(b, reply));
      RevisionIs(c, disk, writes);
      DrivenLoads(c, b, reply);
      NextRevisionLoads(c, b, b');
      SaveChanges(c, disk, b', write, writes);
    } else if reply.Answer? && Validate(reply.status, b.allocation, b.KnownHandle()) == None
              && reply.status.state != Destroyed {
      var b' := b.(status := Some(reply.status));
      InspectedLoads(c, b, reply.status);
      hide LoadOk, SameGeneration, Save, Validate;
      NextRevisionLoads(c, b, b');
      SaveChanges(c, disk, b', write, writes);
    }
  }

  lemma RevisionIs(c: Config, disk: Option<Binding>, writes: nat)
    requires DiskOk(c, disk, writes) && disk.Some?
    ensures LoadOk(disk.value, c.key) && disk.value.revision == writes
  {
  }

  lemma InspectedLoads(c: Config, b: Binding, status: Status)
    requires LoadOk(b, c.key) && !b.retired && status.state != Destroyed
    requires Validate(status, b.allocation, b.KnownHandle()) == None
    ensures LoadOk(b.(status := Some(status)), c.key) && SameGeneration(b, b.(status := Some(status)))
  {
  }

  lemma BeginOk(c: Config, s: State, step: Step)
    requires Inv(c, s) && Enabled(s, step) && !step.StepReply? && !step.StepVanish?
    ensures BegunOk(c, s.disk, s.writes, Begin(c, s.disk, step))
  {
    match step
    case StepEnsure(spec, launching, clock, write) => EnsureBegins(c, s.disk, s.writes, spec, launching, clock, write);
    case StepCommand(handle, intent, clock, write) => CommandBegins(c, s.disk, s.writes, handle, intent, clock, write);
    case StepReconcile(clock) => OthersBegin(c, s.disk, s.writes, clock);
    case StepRecover => OthersBegin(c, s.disk, s.writes, Clock(0, 0));
  }

  lemma IssuedKept(disk: Option<Binding>, disk': Option<Binding>, r: Request)
    requires IssuedOk(disk, r) && Changes(disk, disk')
    ensures IssuedOk(disk', r)
  {
  }

  lemma StepChanges(c: Config, s: State, step: Step)
    requires Inv(c, s) && Enabled(s, step)
    ensures Changes(s.disk, Apply(c, s, step).disk)
    ensures DiskOk(c, Apply(c, s, step).disk, Apply(c, s, step).writes)
    ensures Apply(c, s, step).call.Some? ==> CallOk(Apply(c, s, step).disk, Apply(c, s, step).call.value)
    ensures Apply(c, s, step).writes == Count(s.writes, s.disk, Apply(c, s, step).disk)
  {
    hide Begin, Finish;
    if step.StepReply? {
      ReplyChanges(c, s.disk, s.call.value, s.writes, step.reply, step.write);
    } else if !step.StepVanish? {
      BeginOk(c, s, step);
    }
  }

  /** Every step keeps the invariant: what is stored always passes the test of loading it. */
  lemma StepInv(c: Config, s: State, step: Step)
    requires Inv(c, s) && Enabled(s, step)
    ensures Inv(c, Apply(c, s, step))
  {
    hide Begin, Finish, Changes, DiskOk;
    StepChanges(c, s, step);
    var s' := Apply(c, s, step);
    forall r | r in s'.issued ensures IssuedOk(s'.disk, r) {
      if r in s.issued {
        IssuedKept(s.disk, s'.disk, r);
      } else {
        OwnRequest(s'.disk, s'.call.value, r);
        DiskIs(c, s');
      }
    }
  }

  lemma OwnRequest(disk: Option<Binding>, call: Call, r: Request)
    requires CallOk(disk, call) && r == call.request
    ensures disk.Some? && r.allocation == disk.value.allocation
  {
  }

  lemma DiskIs(c: Config, s: State)
    requires DiskOk(c, s.disk, s.writes) && s.disk.Some?
    ensures s.disk.value.allocation.generation > 0
  {
  }

  // ---- runs ----

  ghost predicate IsRun(c: Config, run: seq<State>, steps: seq<Step>) {
    && c.Valid() && |run| == |steps| + 1 && run[0] == Init()
    && forall i :: 0 <= i < |steps| ==> Enabled(run[i], steps[i]) && run[i + 1] == Apply(c, run[i], steps[i])
  }

  lemma {:induction false} RunInv(c: Config, run: seq<State>, steps: seq<Step>, k: nat)
    requires IsRun(c, run, steps) && k < |run|
    ensures Inv(c, run[k])
  {
    hide Apply, Enabled;
    if k == 0 {
    } else {
      RunInv(c, run, steps, k - 1);
      StepInv(c, run[k - 1], steps[k - 1]);
    }
  }

  /** Whatever is stored, at any point of any run, loads. */
  lemma StoredAlwaysLoads(c: Config, run: seq<State>, steps: seq<Step>, k: nat)
    requires IsRun(c, run, steps) && k < |run| && run[k].disk.Some?
    ensures Load(run[k].disk, c.key) == Some(run[k].disk)
  {
    RunInv(c, run, steps, k);
  }

  /** In every step of a run the stored record stays, or is written once with the next revision,
      in the same generation or in the one after a retired one. */
  lemma RunChanges(c: Config, run: seq<State>, steps: seq<Step>, k: nat)
    requires IsRun(c, run, steps) && k < |steps|
    ensures Changes(run[k].disk, run[k + 1].disk)
    ensures run[k + 1].writes == Count(run[k].writes, run[k].disk, run[k + 1].disk)
  {
    hide Apply, Enabled;
    RunInv(c, run, steps, k);
    StepChanges(c, run[k], steps[k]);
  }

  lemma {:induction false} WritesGrow(c: Config, run: seq<State>, steps: seq<Step>, i: nat, j: nat)
    requires IsRun(c, run, steps) && i <= j < |run|
    ensures run[i].writes <= run[j].writes
    ensures run[i].writes == run[j].writes ==> run[i].disk == run[j].disk
    decreases j - i
  {
    hide Apply, Enabled, Changes;
    if i < j {
      WritesGrow(c, run, steps, i, j - 1);
      RunChanges(c, run, steps, j - 1);
    }
  }

  /** Reading the same binding twice means that nothing was written in between. */
  lemma EqualBindingsMeanNoWrite(c: Config, run: seq<State>, steps: seq<Step>, i: nat, k: nat, j: nat)
    requires IsRun(c, run, steps) && i <= k <= j < |run| && run[i].disk == run[j].disk
    ensures run[k].disk == run[i].disk
  {
    hide Apply, Enabled;
    RunInv(c, run, steps, i);
    RunInv(c, run, steps, j);
    WritesGrow(c, run, steps, i, k);
    WritesGrow(c, run, steps, k, j);
  }

  /** What a generation's record may become: itself, the same allocation with what is known kept,
      or a later generation. */
  predicate Follows(b: Binding, b': Binding) {
    || b'.allocation.generation > b.allocation.generation
    || (&& b'.allocation == b.allocation
        && (b.status.Some? ==> b'.KnownHandle() == b.KnownHandle())
        && (b.pending == Some(Destroy) ==> b'.retired || b'.pending == Some(Destroy))
        && (b.retired ==> b' == b))
  }

  /** Destroy is a one-way door, the allocation is fixed and a known handle stays: over every run
      and any number of coordinators. */
  lemma {:induction false} DestroyIsOneWay(c: Config, run: seq<State>, steps: seq<Step>, i: nat, j: nat)
    requires IsRun(c, run, steps) && i <= j < |run| && run[i].disk.Some?
    ensures run[j].disk.Some? && Follows(run[i].disk.value, run[j].disk.value)
    decreases j - i
  {
    hide Apply, Enabled;
    if i < j {
      DestroyIsOneWay(c, run, steps, i, j - 1);
      RunChanges(c, run, steps, j - 1);
    }
  }

  /** A generation is retired only by an answer to a destroy request of just that allocation and
      handle that says it is destroyed. */
  lemma RetiredByConfirmedDestroy(c: Config, run: seq<State>, steps: seq<Step>, k: nat)
    requires IsRun(c, run, steps) && k < |steps|
    requires run[k + 1].disk.Some? && run[k + 1].disk.value.retired && run[k].disk != run[k + 1].disk
    ensures run[k].call.Some? && steps[k].StepReply? && steps[k].reply.Answer?
    ensures steps[k].reply.status.state == Destroyed
    ensures var call, b := run[k].call.value, run[k + 1].disk.value;
            && call.request == Request(DoDestroy, b.allocation, b.KnownHandle())
            && b.status == Some(steps[k].reply.status)
            && Validate(steps[k].reply.status, b.allocation, b.KnownHandle()) == None
  {
    RunInv(c, run, steps, k);
    RunInv(c, run, steps, k + 1);
    var s, step := run[k], steps[k];
    if step.StepReply? {
      ReplyRetires(c, s.disk, s.call.value, step.reply, step.write);
    } else if !step.StepVanish? {
      BeginRetiresNothing(c, s, step);
    }
  }

  lemma ReplyRetires(c: Config, disk: Option<Binding>, call: Call, reply: Reply, write: Write)
    requires CallOk(disk, call) && LoadOk(call.binding, c.key)
    requires var saved := Finish(disk, call, reply, write); saved.disk != disk && saved.disk.value.retired
    ensures reply.Answer? && reply.status.state == Destroyed
    ensures var b := Finish(disk, call, reply, write).disk.value;
            && call.request == Request(DoDestroy, b.allocation, b.KnownHandle())
            && b.status == Some(reply.status) && Validate(reply.status, b.allocation, b.KnownHandle()) == None
  {
    if call.driving {
      DrivenLoads(c, call.binding, reply);
    }
  }

  lemma BeginRetiresNothing(c: Config, s: State, step: Step)
    requires Inv(c, s) && Enabled(s, step) && !step.StepReply? && !step.StepVanish?
    ensures Begin(c, s.disk, step).disk == s.disk
            || (Begin(c, s.disk, step).disk.Some? && !Begin(c, s.disk, step).disk.value.retired)
  {
  }

  predicate RetiredAt(disk: Option<Binding>, generation: nat) {
    disk.Some? && disk.value.retired && disk.value.allocation.generation == generation
  }

  /** No generation is followed by another before it was retired. */
  lemma {:induction false} RetiredBeforeSuccessor(c: Config, run: seq<State>, steps: seq<Step>, i: nat, j: nat)
    returns (k: nat)
    requires IsRun(c, run, steps) && i <= j < |run| && run[i].disk.Some? && run[j].disk.Some?
    requires run[j].disk.value.allocation.generation > run[i].disk.value.allocation.generation
    ensures i <= k < j && RetiredAt(run[k].disk, run[i].disk.value.allocation.generation)
    decreases j - i
  {
    hide Apply, Enabled;
    DestroyIsOneWay(c, run, steps, i, j - 1);
    RunChanges(c, run, steps, j - 1);
    if run[j - 1].disk.value.allocation.generation > run[i].disk.value.allocation.generation {
      k := RetiredBeforeSuccessor(c, run, steps, i, j - 1);
    } else {
      k := j - 1;
    }
  }
}
