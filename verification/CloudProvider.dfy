/** One provider operation from lock to reply, with the ledger and the containers updated in
    place. */
module CloudProvider {
  import opened Common
  import opened CloudTypes
  import opened CloudRegistry
  import opened CloudDocker

  /** The steps of an operation as long as the process lives: one per element of `acts`. */
  function Carry(c: Setup, done: Done, acts: seq<Acts>): Done
    decreases |acts|
  {
    if acts == [] || done.docker.op == None then done
    else if done.docker.op.value.request.allocation.generation !in done.docker.ledger then done
    else Carry(c, StepOp(c, done.docker, acts[0]), acts[1..])
  }

  lemma CarryStep(c: Setup, done: Done, acts: seq<Acts>, i: nat)
    requires i < |acts| && done.docker.op.Some?
    requires done.docker.op.value.request.allocation.generation in done.docker.ledger
    ensures Carry(c, done, acts[i..]) == Carry(c, StepOp(c, done.docker, acts[i]), acts[i + 1..])
  {
    assert acts[i..][1..] == acts[i + 1..];
  }

  lemma CarryEnd(c: Setup, done: Done, acts: seq<Acts>)
    requires done.docker.op == None || acts == []
    ensures Carry(c, done, acts) == done
  {
  }

  function Fail(code: FailureCode): Option<Reply> { Some(Failure(ErrorOf(code))) }

  class Provider {
    const setup: Setup
    var ledger: Ledger
    var containers: map<string, Power>

    constructor (setup: Setup)
      ensures this.setup == setup && ledger == map[] && containers == map[]
    {
      this.setup, ledger, containers := setup, map[], map[];
    }

    /** The operation that ends as `end` has come to `phase`, with the actions from `i` on ahead. */
    ghost predicate At(end: Done, r: Request, phase: Phase, acts: seq<Acts>, i: nat)
      reads this
    {
      && i <= |acts| && r.allocation.generation in ledger
      && end == Carry(setup, Done(Docker(ledger, containers, Some(Op(r, phase))), None), acts[i..])
    }

    ghost predicate Ended(end: Done, reply: Option<Reply>)
      reads this
    {
      ledger == end.docker.ledger && containers == end.docker.containers && reply == end.reply
    }

    method SaveLedger(next: Ledger, write: Write) returns (ok: bool)
      modifies this`ledger
      ensures ledger == if write == NotWritten then old(ledger) else next
      ensures ok <==> write == Written
    {
      if write != NotWritten {
        ledger := next;
      }
      ok := write == Written;
    }

    /** `status`: inspects the container and checks what comes of it. */
    method InspectContainer(a: Allocation, act: Acts) returns (reply: Reply)
      ensures reply == Inspected(setup, Docker(ledger, containers, None), a, act)
    {
      if act.error.Some? {
        return Failure(ErrorOf(act.error.value));
      }
      var name := Name(setup, a.generation);
      if name !in containers {
        return Failure(ErrorOf(NotFound));
      }
      var running, handle := containers[name] == Up, HandleOf(setup, a);
      var state := if running then Running else if containers[name] == Idle then Provisioning else Stopped;
      var connection := if running then Some(Connection(handle, true)) else None;
      var status := Status(handle, state, running && act.healthy, connection, None);
      var error := Validate(status, a, None);
      reply := if error.Some? then Failure(error.value) else Answer(status);
    }

    /** The status that an operation replies in the end. */
    method ReportStatus(ghost end: Done, r: Request, acts: seq<Acts>, i: nat) returns (reply: Option<Reply>)
      requires At(end, r, Report, acts, i)
      ensures Ended(end, reply)
    {
      if i == |acts| {
        return None;
      }
      CarryStep(setup, Done(Docker(ledger, containers, Some(Op(r, Report))), None), acts, i);
      var inspected := InspectContainer(r.allocation, acts[i]);
      reply := Some(inspected);
    }

    method Turn(name: string, power: Power, act: Acts)
      modifies this`containers
      ensures Docker(ledger, containers, None) == Turned(Docker(ledger, old(containers), None), name, power, act)
    {
      if act.effect && name in containers {
        containers := containers[name := power];
      }
    }

    /** Starts the container unless it runs. */
    method StartContainer(ghost end: Done, r: Request, acts: seq<Acts>, i: nat) returns (reply: Option<Reply>)
      requires At(end, r, See, acts, i) && r.action != DoStop
      modifies this`containers
      ensures Ended(end, reply)
    {
      if i == |acts| {
        return None;
      }
      CarryStep(setup, Done(Docker(ledger, containers, Some(Op(r, See))), None), acts, i);
      var seen := InspectContainer(r.allocation, acts[i]);
      if seen.Failure? {
        return Some(seen);
      }
      if seen.status.state == Running {
        reply := ReportStatus(end, r, acts, i + 1);
        return;
      }
      if i + 1 == |acts| {
        return None;
      }
      CarryStep(setup, Done(Docker(ledger, containers, Some(Op(r, TurnOn))), None), acts, i + 1);
      Turn(Name(setup, r.allocation.generation), Up, acts[i + 1]);
      if acts[i + 1].error.Some? {
        return Fail(acts[i + 1].error.value);
      }
      reply := ReportStatus(end, r, acts, i + 2);
    }

    /** `stop_container`: when stopping times out, the container is watched for a while. */
    method StopContainer(ghost end: Done, r: Request, acts: seq<Acts>, at: nat)
      returns (stopped: bool, reply: Option<Reply>, i: nat)
      requires At(end, r, TurnOff, acts, at)
      modifies this`containers
      ensures if stopped then At(end, r, if r.action == DoDestroy then Remove else Report, acts, i)
              else Ended(end, reply)
    {
      hide Name, Inspected;
      var name := Name(setup, r.allocation.generation);
      stopped, reply, i := false, None, at;
      if i == |acts| {
        return;
      }
      CarryStep(setup, Done(Docker(ledger, containers, Some(Op(r, TurnOff))), None), acts, i);
      Turn(name, Down, acts[i]);
      var error := acts[i].error;
      i := i + 1;
      if error == None {
        stopped := true;
        return;
      }
      if error.value != Timeout {
        reply := Fail(error.value);
        return;
      }
      for left := POLLS downto 0
        invariant left > 0 ==> At(end, r, Poll(left), acts, i)
        invariant left == 0 ==> Ended(end, Fail(Timeout))
      {
        if i == |acts| {
          return;
        }
        CarryStep(setup, Done(Docker(ledger, containers, Some(Op(r, Poll(left + 1)))), None), acts, i);
        Turn(name, Down, acts[i]);
        if acts[i].error.Some? {
          reply := Fail(acts[i].error.value);
          return;
        }
        i := i + 1;
        if name !in containers {
          reply := Fail(NotFound);
          return;
        }
        if containers[name] != Up {
          stopped := true;
          return;
        }
      }
      reply := Fail(Timeout);
    }

    method StopMachine(ghost end: Done, r: Request, acts: seq<Acts>) returns (reply: Option<Reply>)
      requires At(end, r, See, acts, 0) && r.action == DoStop
      modifies this`containers
      ensures Ended(end, reply)
    {
      if |acts| == 0 {
        return None;
      }
      CarryStep(setup, Done(Docker(ledger, containers, Some(Op(r, See))), None), acts, 0);
      var seen := InspectContainer(r.allocation, acts[0]);
      if seen.Failure? {
        return Some(seen);
      }
      var i := 1;
      if seen.status.state == Running {
        var stopped;
        stopped, reply, i := StopContainer(end, r, acts, i);
        if !stopped {
          return;
        }
      }
      reply := ReportStatus(end, r, acts, i);
    }

    /** `provision`: finds the container or creates it, with the actions from `at` on. */
    method Provision(ghost end: Done, r: Request, acts: seq<Acts>, at: nat)
      returns (failed: bool, reply: Option<Reply>, i: nat)
      requires At(end, r, Look, acts, at)
      modifies this`containers
      ensures if failed then Ended(end, reply) else At(end, r, NoteCreated, acts, i)
    {
      var name := Name(setup, r.allocation.generation);
      i, failed, reply := at, true, None;
      if i == |acts| {
        return;
      }
      CarryStep(setup, Done(Docker(ledger, containers, Some(Op(r, Look))), None), acts, i);
      if acts[i].error.Some? {
        reply := Fail(acts[i].error.value);
        return;
      }
      i := i + 1;
      if name in containers {
        failed := false;
        return;
      }
      if i == |acts| {
        return;
      }
      CarryStep(setup, Done(Docker(ledger, containers, Some(Op(r, Create))), None), acts, i);
      if acts[i].effect {
        containers := if name in containers then containers else containers[name := Idle];
      }
      if acts[i].error.Some? {
        reply := Fail(acts[i].error.value);
        return;
      }
      i := i + 1;
      if i == |acts| {
        return;
      }
      CarryStep(setup, Done(Docker(ledger, containers, Some(Op(r, Look2))), None), acts, i);
      if acts[i].error.Some? {
        reply := Fail(acts[i].error.value);
        return;
      }
      if name !in containers {
        reply := Fail(NotFound);
        return;
      }
      i, failed := i + 1, false;
    }

    method EnsureContainer(ghost end: Done, r: Request, acts: seq<Acts>) returns (reply: Option<Reply>)
      requires r.allocation.generation in ledger
      requires At(end, r, if ledger[r.allocation.generation].created then Known else Look, acts, 0)
      requires r.action == DoEnsure
      modifies this
      ensures Ended(end, reply)
    {
      var g, i := r.allocation.generation, 0;
      if ledger[g].created {
        if |acts| == 0 {
          return None;
        }
        CarryStep(setup, Done(Docker(ledger, containers, Some(Op(r, Known))), None), acts, 0);
        if acts[0].error.Some? {
          return Fail(acts[0].error.value);
        }
        if Name(setup, g) !in containers {
          return Fail(NotFound);
        }
        i := 1;
      }
      var failed;
      failed, reply, i := Provision(end, r, acts, i);
      if failed {
        return;
      }
      if i == |acts| {
        return None;
      }
      CarryStep(setup, Done(Docker(ledger, containers, Some(Op(r, NoteCreated))), None), acts, i);
      var ok := SaveLedger(ledger[g := ledger[g].(created := true)], acts[i].write);
      if !ok {
        return Fail(Unavailable);
      }
      reply := StartContainer(end, r, acts, i + 1);
    }

    method DestroyContainer(ghost end: Done, r: Request, acts: seq<Acts>) returns (reply: Option<Reply>)
      requires At(end, r, LookDown, acts, 0) && r.action == DoDestroy
      modifies this
      ensures Ended(end, reply)
    {
      var g, name, i := r.allocation.generation, Name(setup, r.allocation.generation), 0;
      if |acts| == 0 {
        return None;
      }
      CarryStep(setup, Done(Docker(ledger, containers, Some(Op(r, LookDown))), None), acts, 0);
      if acts[0].error.Some? {
        return Fail(acts[0].error.value);
      }
      i := 1;
      if name in containers {
        if containers[name] == Up {
          var stopped;
          stopped, reply, i := StopContainer(end, r, acts, i);
          if !stopped {
            return;
          }
        }
        if i == |acts| {
          return None;
        }
        CarryStep(setup, Done(Docker(ledger, containers, Some(Op(r, Remove))), None), acts, i);
        if acts[i].effect {
          containers := containers - {name};
        }
        if acts[i].error.Some? {
          return Fail(acts[i].error.value);
        }
        i := i + 1;
      }
      reply := NoteGone(end, r, acts, i);
    }

    method NoteGone(ghost end: Done, r: Request, acts: seq<Acts>, i: nat) returns (reply: Option<Reply>)
      requires At(end, r, Verify, acts, i)
      modifies this`ledger
      ensures Ended(end, reply)
    {
      var g := r.allocation.generation;
      if i == |acts| {
        return None;
      }
      CarryStep(setup, Done(Docker(ledger, containers, Some(Op(r, Verify))), None), acts, i);
      if acts[i].error.Some? {
        return Fail(acts[i].error.value);
      }
      if Name(setup, g) in containers {
        return Fail(Conflicting);
      }
      if i + 1 == |acts| {
        return None;
      }
      CarryStep(setup, Done(Docker(ledger, containers, Some(Op(r, NoteDestroyed))), None), acts, i + 1);
      var ok := SaveLedger(ledger[g := ledger[g].(destroyed := true)], acts[i + 1].write);
      if !ok {
        return Fail(Unavailable);
      }
      reply := Some(Answer(Dead(setup, r.allocation)));
    }

    /** The whole operation is the steps of `CloudDocker`, cut off where the process dies. */
    method Operation(r: Request, env: Begins, acts: seq<Acts>) returns (reply: Option<Reply>)
      modifies this
      ensures Ended(Carry(setup, BeginOp(setup, Docker(old(ledger), old(containers), None), r, env), acts), reply)
    {
      ghost var begun := BeginOp(setup, Docker(ledger, containers, None), r, env);
      ghost var end := Carry(setup, begun, acts);
      assert acts[0..] == acts;
      var a, g := r.allocation, r.allocation.generation;
      if begun.docker.op == None { CarryEnd(setup, begun, acts); }
      if !Accepts(setup, a, env.safe) {
        return Fail(Rejected);
      }
      if r.action == DoEnsure && g !in ledger {
        if !a.launch.value.Active(env.now) {
          return Fail(Rejected);
        }
        if !MayInsert(ledger, g) {
          return Fail(Conflicting);
        }
        if env.image == None {
          return Fail(Rejected);
        }
        var ok := SaveLedger(ledger[g := Record(a, env.image.value, false, false, false)], env.insert);
        if !ok {
          return Fail(Unavailable);
        }
      }
      if g !in ledger {
        return Fail(NotFound);
      }
      var record := ledger[g];
      if record.allocation != a || (r.handle.Some? && r.handle.value != HandleOf(setup, a)) {
        return Fail(Identity);
      }
      if record.destroyed {
        return if r.action == DoDestroy || r.action == DoInspect then Some(Answer(Dead(setup, a)))
               else Fail(Conflicting);
      }
      if record.destroying && r.action != DoDestroy {
        return Fail(Conflicting);
      }
      if r.action == DoEnsure || r.action == DoStart {
        if env.image == None {
          return Fail(Rejected);
        }
        if env.image.value != record.image {
          return Fail(Conflicting);
        }
        if !a.launch.value.Active(env.now) {
          return Fail(Rejected);
        }
      }
      match r.action
      case DoEnsure => reply := EnsureContainer(end, r, acts);
      case DoDestroy =>
        var ok := SaveLedger(ledger[g := record.(destroying := true)], env.destroying);
        if !ok {
          return Fail(Unavailable);
        }
        reply := DestroyContainer(end, r, acts);
      case DoInspect => reply := ReportStatus(end, r, acts, 0);
      case DoStart => reply := StartContainer(end, r, acts, 0);
      case DoStop => reply := StopMachine(end, r, acts);
    }
  }

  /** An operation that is never cut off answers within fifteen actions. */
  lemma OperationsEnd(c: Setup, d: Docker, r: Request, env: Begins, acts: seq<Acts>)
    requires DockerOk(c, d) && d.op == None && |acts| >= 15
    ensures Carry(c, BeginOp(c, d, r, env), acts).docker.op == None
    ensures Carry(c, BeginOp(c, d, r, env), acts).reply.Some?
    ensures DockerOk(c, Carry(c, BeginOp(c, d, r, env), acts).docker)
  {
    hide BeginOp, DockerOk;
    BeginSound(c, d, r, env);
    BeginsEarly(c, d, r, env);
    CarryEnds(c, BeginOp(c, d, r, env), acts);
  }

  /** How many actions are still to come at most. */
  function Left(done: Done): nat {
    if done.docker.op == None then 0
    else
      var r := done.docker.op.value.request;
      var rest := if r.action == DoDestroy then 3 else 1;
      match done.docker.op.value.phase
      case Known => 8 case Look => 7 case Create => 6 case Look2 => 5 case NoteCreated => 4
      case See => (if r.action == DoStop then POLLS + 3 else 3)
      case TurnOn => 2 case Report => 1
      case TurnOff => POLLS + 1 + rest
      case Poll(left) => (if left == 0 then 1 else left) + rest
      case LookDown => POLLS + 5
      case Remove => 3 case Verify => 2 case NoteDestroyed => 1
  }

  lemma BeginsEarly(c: Setup, d: Docker, r: Request, env: Begins)
    ensures BeginOp(c, d, r, env).docker.op == None ==> BeginOp(c, d, r, env).reply.Some?
    ensures Left(BeginOp(c, d, r, env)) <= 15
  {
  }

  lemma {:induction false} CarryEnds(c: Setup, done: Done, acts: seq<Acts>)
    requires DockerOk(c, done.docker) && Left(done) <= |acts| && (done.docker.op == None ==> done.reply.Some?)
    ensures Carry(c, done, acts).docker.op == None && Carry(c, done, acts).reply.Some?
    ensures DockerOk(c, Carry(c, done, acts).docker)
    decreases |acts|
  {
    if done.docker.op.Some? {
      StepSound(c, done.docker, acts[0]);
      StepComesCloser(c, done, acts[0]);
      hide StepOp, LedgerOk;
      CarryEnds(c, StepOp(c, done.docker, acts[0]), acts[1..]);
    }
  }

  lemma StepComesCloser(c: Setup, done: Done, act: Acts)
    requires done.docker.op.Some? && OpOk(c, done.docker, done.docker.op.value)
    ensures Left(StepOp(c, done.docker, act)) < Left(done)
    ensures StepOp(c, done.docker, act).docker.op == None ==> StepOp(c, done.docker, act).reply.Some?
  {
    hide Inspected, Turned, Name;
  }
}
