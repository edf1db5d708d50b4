/** What comes of a provider operation that nothing disturbs: every command succeeds and takes
    effect, every write is durable, and the process lives on. */
module CloudOutcomes {
  import opened Common
  import opened CloudTypes
  import opened CloudRegistry
  import opened CloudDocker
  import opened CloudProvider

  predicate Smooth(acts: seq<Acts>) {
    forall i :: 0 <= i < |acts| ==> acts[i].error == None && acts[i].effect && acts[i].write == Written
  }

  /** The request is for an allocation of this provider whose names are in order. */
  predicate Proper(c: Setup, a: Allocation, safe: bool) {
    Accepts(c, a, safe) && ValidId(c.id) && ValidId(Name(c, a.generation))
  }

  /** The reply tells that the machine of `a` is in this state. */
  predicate Tells(c: Setup, a: Allocation, power: Power, reply: Option<Reply>) {
    && reply.Some? && reply.value.Answer?
    && (reply.value.status == StatusOf(c, a, power, true) || reply.value.status == StatusOf(c, a, power, false))
  }

  /** Its meaning: the machine's own handle, running exactly if the container is, and then with the
      way to it. */
  lemma TellsMeans(c: Setup, a: Allocation, power: Power, reply: Option<Reply>)
    requires Tells(c, a, power, reply)
    ensures var s := reply.value.status;
            && s.handle == HandleOf(c, a) && (s.state == Running <==> power == Up)
            && (s.connection.Some? <==> power == Up) && (s.ready ==> power == Up)
            && (s.state == Provisioning <==> power == Idle) && (s.state == Stopped <==> power == Down)
  {
  }

  /** The operation on `d` is at `phase` of `r`, with enough actions ahead, and comes to `end`. */
  ghost predicate Runs(c: Setup, d: Docker, r: Request, phase: Phase, safe: bool, acts: seq<Acts>, end: Done) {
    && d.op == Some(Op(r, phase)) && r.allocation.generation in d.ledger && Proper(c, r.allocation, safe)
    && Smooth(acts) && end == Carry(c, Done(d, None), acts)
  }

  lemma InspectedIs(c: Setup, d: Docker, a: Allocation, safe: bool, act: Acts)
    requires Proper(c, a, safe) && act.error == None && Name(c, a.generation) in d.containers
    ensures Inspected(c, d, a, act) == Answer(StatusOf(c, a, d.containers[Name(c, a.generation)], act.healthy))
  {
    hide Name;
  }

  lemma ReportRuns(c: Setup, d: Docker, r: Request, safe: bool, acts: seq<Acts>, end: Done)
    requires Runs(c, d, r, Report, safe, acts, end) && |acts| >= 1 && Name(c, r.allocation.generation) in d.containers
    ensures end.docker == d.(op := None)
    ensures Tells(c, r.allocation, d.containers[Name(c, r.allocation.generation)], end.reply)
  {
    hide Name, Inspected;
    InspectedIs(c, d, r.allocation, safe, acts[0]);
    CarryEnd(c, StepOp(c, d, acts[0]), acts[1..]);
  }

  lemma StartRuns(c: Setup, d: Docker, r: Request, safe: bool, acts: seq<Acts>, end: Done)
    requires Runs(c, d, r, See, safe, acts, end) && |acts| >= 3 && r.action != DoStop
    requires Name(c, r.allocation.generation) in d.containers
    ensures end.docker == d.(op := None, containers := d.containers[Name(c, r.allocation.generation) := Up])
    ensures Tells(c, r.allocation, Up, end.reply)
  {
    var name := Name(c, r.allocation.generation);
    hide Name, Inspected, Proper;
    InspectedIs(c, d, r.allocation, safe, acts[0]);
    if d.containers[name] == Up {
      assert d.containers[name := Up] == d.containers;
      ReportRuns(c, d.(op := Some(Op(r, Report))), r, safe, acts[1..], end);
    } else {
      var on := d.(containers := d.containers[name := Up], op := Some(Op(r, Report)));
      assert Carry(c, Done(d.(op := Some(Op(r, TurnOn))), None), acts[1..]) == Carry(c, Done(on, None), acts[1..][1..]);
      ReportRuns(c, on, r, safe, acts[1..][1..], end);
    }
  }

  /** The ledger once the container of generation `g` is known to have been created. */
  function Noted(d: Docker, g: nat): Docker
    requires g in d.ledger
  {
    d.(ledger := d.ledger[g := d.ledger[g].(created := true)])
  }

  lemma NoteRuns(c: Setup, d: Docker, r: Request, safe: bool, acts: seq<Acts>, end: Done)
    requires Runs(c, d, r, NoteCreated, safe, acts, end) && |acts| >= 4 && r.action == DoEnsure
    requires Name(c, r.allocation.generation) in d.containers
    ensures end.docker ==
            Noted(d, r.allocation.generation).(op := None,
                                               containers := d.containers[Name(c, r.allocation.generation) := Up])
    ensures Tells(c, r.allocation, Up, end.reply)
  {
    hide Name, Inspected, Proper;
    StartRuns(c, Noted(d, r.allocation.generation).(op := Some(Op(r, See))), r, safe, acts[1..], end);
  }

  /** The container is found or created. */
  lemma LookRuns(c: Setup, d: Docker, r: Request, safe: bool, acts: seq<Acts>, end: Done)
    requires Runs(c, d, r, Look, safe, acts, end) && |acts| >= 7 && r.action == DoEnsure
    ensures end.docker ==
            Noted(d, r.allocation.generation).(op := None,
                                               containers := d.containers[Name(c, r.allocation.generation) := Up])
    ensures Tells(c, r.allocation, Up, end.reply)
  {
    var name := Name(c, r.allocation.generation);
    hide Name, Inspected, Proper;
    if name in d.containers {
      NoteRuns(c, d.(op := Some(Op(r, NoteCreated))), r, safe, acts[1..], end);
    } else {
      var made := d.(containers := d.containers[name := Idle]);
      CreateRuns(c, d.(op := Some(Op(r, Create))), r, safe, acts[1..], end);
      assert made.containers[name := Up] == d.containers[name := Up];
    }
  }

  lemma CreateRuns(c: Setup, d: Docker, r: Request, safe: bool, acts: seq<Acts>, end: Done)
    requires Runs(c, d, r, Create, safe, acts, end) && |acts| >= 6 && r.action == DoEnsure
    requires Name(c, r.allocation.generation) !in d.containers
    ensures var name := Name(c, r.allocation.generation);
            end.docker == Noted(d, r.allocation.generation).(op := None,
                                                             containers := d.containers[name := Idle][name := Up])
    ensures Tells(c, r.allocation, Up, end.reply)
  {
    var name := Name(c, r.allocation.generation);
    hide Name, Inspected, Proper;
    var made := d.(containers := d.containers[name := Idle]);
    assert end == Carry(c, Done(made.(op := Some(Op(r, Look2))), None), acts[1..]);
    assert end == Carry(c, Done(made.(op := Some(Op(r, NoteCreated))), None), acts[1..][1..]);
    NoteRuns(c, made.(op := Some(Op(r, NoteCreated))), r, safe, acts[1..][1..], end);
  }

  /** When an `ensure` is let in: the exact conditions. */
  ghost predicate EnsureAccepted(c: Setup, d: Docker, r: Request, env: Begins) {
    var a := r.allocation;
    && Accepts(c, a, env.safe) && a.launch.value.Active(env.now) && env.image.Some?
    && (r.handle.Some? ==> r.handle.value == HandleOf(c, a))
    && if a.generation !in d.ledger then MayInsert(d.ledger, a.generation) && env.insert == Written
       else
         var record := d.ledger[a.generation];
         record.allocation == a && !record.destroyed && !record.destroying && record.image == env.image.value
  }

  lemma EnsureGoesOn(c: Setup, d: Docker, r: Request, env: Begins)
    requires d.op == None && r.action == DoEnsure
    ensures BeginOp(c, d, r, env).docker.op.Some? <==> EnsureAccepted(c, d, r, env)
    ensures EnsureAccepted(c, d, r, env) ==>
              var g, begun := r.allocation.generation, BeginOp(c, d, r, env).docker;
              && begun.containers == d.containers && g in begun.ledger
              && begun.ledger == (if g in d.ledger then d.ledger
                                  else d.ledger[g := Record(r.allocation, env.image.value, false, false, false)])
              && begun.op == Some(Op(r, if begun.ledger[g].created then Known else Look))
              && BeginOp(c, d, r, env).reply == None
  {
    hide MayInsert, Name;
  }

  /** An accepted `ensure` that nothing disturbs creates the container unless it is there, starts it
      unless it runs, records that it was created and answers that the machine runs; only when the
      container was created before and has vanished it answers that there is none. */
  lemma EnsureSucceeds(c: Setup, d: Docker, r: Request, env: Begins, acts: seq<Acts>)
    requires d.op == None && r.action == DoEnsure && EnsureAccepted(c, d, r, env) && Proper(c, r.allocation, env.safe)
    requires Smooth(acts) && |acts| >= 8
    ensures var g, name, begun := r.allocation.generation, Name(c, r.allocation.generation),
              BeginOp(c, d, r, env).docker;
            var end := Carry(c, BeginOp(c, d, r, env), acts);
            && g in begun.ledger
            && if begun.ledger[g].created && name !in d.containers then
                 end == Done(begun.(op := None), Some(Failure(ErrorOf(NotFound))))
               else
                 && end.docker == Noted(begun, g).(op := None, containers := d.containers[name := Up])
                 && Tells(c, r.allocation, Up, end.reply)
  {
    hide MayInsert, Inspected, Tells, Proper, EnsureAccepted, BeginOp, Name;
    EnsureGoesOn(c, d, r, env);
    var begun := BeginOp(c, d, r, env).docker;
    var end := Carry(c, BeginOp(c, d, r, env), acts);
    if begun.ledger[r.allocation.generation].created {
      if Name(c, r.allocation.generation) in d.containers {
        LookRuns(c, begun.(op := Some(Op(r, Look))), r, env.safe, acts[1..], end);
      }
    } else {
      LookRuns(c, begun, r, env.safe, acts, end);
    }
  }

  /** When another operation is let in: for a recorded, live generation. */
  predicate OtherAccepted(c: Setup, d: Docker, r: Request, env: Begins) {
    var a := r.allocation;
    && Accepts(c, a, env.safe) && (r.handle.Some? ==> r.handle.value == HandleOf(c, a))
    && a.generation in d.ledger && d.ledger[a.generation].allocation == a && !d.ledger[a.generation].destroyed
    && (r.action != DoDestroy ==> !d.ledger[a.generation].destroying)
    && (r.action == DoStart ==> env.image == Some(d.ledger[a.generation].image) && a.launch.value.Active(env.now))
    && (r.action == DoDestroy ==> env.destroying == Written)
  }

  lemma OtherGoesOn(c: Setup, d: Docker, r: Request, env: Begins)
    requires d.op == None && r.action != DoEnsure
    ensures BeginOp(c, d, r, env).docker.op.Some? <==> OtherAccepted(c, d, r, env)
    ensures OtherAccepted(c, d, r, env) ==>
              var g, begun := r.allocation.generation, BeginOp(c, d, r, env);
              && begun.reply == None && begun.docker.containers == d.containers
              && begun.docker.ledger == (if r.action == DoDestroy then d.ledger[g := d.ledger[g].(destroying := true)]
                                         else d.ledger)
              && begun.docker.op == Some(Op(r, if r.action == DoDestroy then LookDown
                                               else if r.action == DoInspect then Report else See))
  {
    hide Name;
  }

  /** An undisturbed `start` leaves the container running and says so; without a container it
      answers that there is none. */
  lemma StartSucceeds(c: Setup, d: Docker, r: Request, env: Begins, acts: seq<Acts>)
    requires d.op == None && r.action == DoStart && OtherAccepted(c, d, r, env) && Proper(c, r.allocation, env.safe)
    requires Smooth(acts) && |acts| >= 3
    ensures var name, end := Name(c, r.allocation.generation), Carry(c, BeginOp(c, d, r, env), acts);
            if name in d.containers then
              end.docker == d.(containers := d.containers[name := Up]) && Tells(c, r.allocation, Up, end.reply)
            else end == Done(d, Some(Failure(ErrorOf(NotFound))))
  {
    OtherGoesOn(c, d, r, env);
    hide Tells, Proper, BeginOp, Name, OtherAccepted;
    var begun, end := BeginOp(c, d, r, env).docker, Carry(c, BeginOp(c, d, r, env), acts);
    if Name(c, r.allocation.generation) in d.containers {
      StartRuns(c, begun, r, env.safe, acts, end);
    } else {
      NoneToSee(c, begun, r, acts, end);
    }
  }

  /** An undisturbed `stop` leaves a running container stopped, any other as it is, and says so. */
  lemma StopSucceeds(c: Setup, d: Docker, r: Request, env: Begins, acts: seq<Acts>)
    requires d.op == None && r.action == DoStop && OtherAccepted(c, d, r, env) && Proper(c, r.allocation, env.safe)
    requires Smooth(acts) && |acts| >= 3
    ensures var name, end := Name(c, r.allocation.generation), Carry(c, BeginOp(c, d, r, env), acts);
            if name in d.containers then
              var power := if d.containers[name] == Up then Down else d.containers[name];
              end.docker == d.(containers := d.containers[name := power]) && Tells(c, r.allocation, power, end.reply)
            else end == Done(d, Some(Failure(ErrorOf(NotFound))))
  {
    OtherGoesOn(c, d, r, env);
    hide Tells, Proper, BeginOp, Name, OtherAccepted;
    var begun, end := BeginOp(c, d, r, env).docker, Carry(c, BeginOp(c, d, r, env), acts);
    if Name(c, r.allocation.generation) in d.containers {
      StopRuns(c, begun, r, env.safe, acts, end);
    } else {
      NoneToSee(c, begun, r, acts, end);
    }
  }

  lemma StopRuns(c: Setup, d: Docker, r: Request, safe: bool, acts: seq<Acts>, end: Done)
    requires Runs(c, d, r, See, safe, acts, end) && |acts| >= 3 && r.action == DoStop
    requires Name(c, r.allocation.generation) in d.containers
    ensures var name := Name(c, r.allocation.generation);
            var power := if d.containers[name] == Up then Down else d.containers[name];
            end.docker == d.(op := None, containers := d.containers[name := power])
            && Tells(c, r.allocation, power, end.reply)
  {
    var name := Name(c, r.allocation.generation);
    hide Name, Inspected, Proper;
    InspectedIs(c, d, r.allocation, safe, acts[0]);
    if d.containers[name] == Up {
      var off := d.(containers := d.containers[name := Down], op := Some(Op(r, Report)));
      assert end == Carry(c, Done(d.(op := Some(Op(r, TurnOff))), None), acts[1..]);
      assert end == Carry(c, Done(off, None), acts[1..][1..]);
      ReportRuns(c, off, r, safe, acts[1..][1..], end);
    } else {
      assert d.containers[name := d.containers[name]] == d.containers;
      ReportRuns(c, d.(op := Some(Op(r, Report))), r, safe, acts[1..], end);
    }
  }

  /** Nothing is changed when there is no container to be seen. */
  lemma NoneToSee(c: Setup, d: Docker, r: Request, acts: seq<Acts>, end: Done)
    requires d.op == Some(Op(r, See)) || d.op == Some(Op(r, Report))
    requires r.allocation.generation in d.ledger && Smooth(acts) && |acts| >= 1
    requires Name(c, r.allocation.generation) !in d.containers && end == Carry(c, Done(d, None), acts)
    ensures end == Done(d.(op := None), Some(Failure(ErrorOf(NotFound))))
  {
    hide Name, Inspected;
    MissingIs(c, d, r.allocation, acts[0]);
    CarryEnd(c, StepOp(c, d, acts[0]), acts[1..]);
  }

  lemma MissingIs(c: Setup, d: Docker, a: Allocation, act: Acts)
    requires act.error == None && Name(c, a.generation) !in d.containers
    ensures Inspected(c, d, a, act) == Failure(ErrorOf(NotFound))
  {
  }

  /** An undisturbed inspection tells what the container does. */
  lemma InspectSucceeds(c: Setup, d: Docker, r: Request, env: Begins, acts: seq<Acts>)
    requires d.op == None && r.action == DoInspect && OtherAccepted(c, d, r, env) && Proper(c, r.allocation, env.safe)
    requires Smooth(acts) && |acts| >= 1
    ensures var name, end := Name(c, r.allocation.generation), Carry(c, BeginOp(c, d, r, env), acts);
            && end.docker == d
            && if name in d.containers then Tells(c, r.allocation, d.containers[name], end.reply)
               else end.reply == Some(Failure(ErrorOf(NotFound)))
  {
    OtherGoesOn(c, d, r, env);
    hide Tells, Proper, BeginOp, Name, OtherAccepted;
    var begun, end := BeginOp(c, d, r, env).docker, Carry(c, BeginOp(c, d, r, env), acts);
    if Name(c, r.allocation.generation) in d.containers {
      ReportRuns(c, begun, r, env.safe, acts, end);
    } else {
      NoneToSee(c, begun, r, acts, end);
    }
  }

  /** An undisturbed `destroy` removes the container, running or not, records that the generation is
      destroyed and answers so. */
  lemma DestroySucceeds(c: Setup, d: Docker, r: Request, env: Begins, acts: seq<Acts>)
    requires d.op == None && r.action == DoDestroy && OtherAccepted(c, d, r, env)
    requires Smooth(acts) && |acts| >= 5
    ensures var g, end := r.allocation.generation, Carry(c, BeginOp(c, d, r, env), acts);
            && end.docker == d.(containers := d.containers - {Name(c, g)},
                                ledger := d.ledger[g := d.ledger[g].(destroying := true, destroyed := true)])
            && end.reply == Some(Answer(Dead(c, r.allocation)))
  {
    OtherGoesOn(c, d, r, env);
    var name := Name(c, r.allocation.generation);
    hide BeginOp, Name;
    var begun, end := BeginOp(c, d, r, env).docker, Carry(c, BeginOp(c, d, r, env), acts);
    if name !in d.containers {
      assert d.containers - {name} == d.containers;
      VerifyRuns(c, begun.(op := Some(Op(r, Verify))), r, acts[1..], end);
    } else if d.containers[name] != Up {
      RemoveRuns(c, begun.(op := Some(Op(r, Remove))), r, acts[1..], end);
    } else {
      var off := begun.(containers := d.containers[name := Down]);
      assert end == Carry(c, Done(begun.(op := Some(Op(r, TurnOff))), None), acts[1..]);
      assert end == Carry(c, Done(off.(op := Some(Op(r, Remove))), None), acts[1..][1..]);
      assert off.containers - {name} == d.containers - {name};
      RemoveRuns(c, off.(op := Some(Op(r, Remove))), r, acts[1..][1..], end);
    }
  }

  lemma RemoveRuns(c: Setup, d: Docker, r: Request, acts: seq<Acts>, end: Done)
    requires d.op == Some(Op(r, Remove)) && r.allocation.generation in d.ledger && Smooth(acts) && |acts| >= 3
    requires end == Carry(c, Done(d, None), acts)
    ensures var g := r.allocation.generation;
            end == Done(d.(op := None, containers := d.containers - {Name(c, g)},
                           ledger := d.ledger[g := d.ledger[g].(destroyed := true)]),
                        Some(Answer(Dead(c, r.allocation))))
  {
    hide Name;
    var removed := d.(containers := d.containers - {Name(c, r.allocation.generation)});
    VerifyRuns(c, removed.(op := Some(Op(r, Verify))), r, acts[1..], end);
  }

  lemma VerifyRuns(c: Setup, d: Docker, r: Request, acts: seq<Acts>, end: Done)
    requires d.op == Some(Op(r, Verify)) && r.allocation.generation in d.ledger && Smooth(acts) && |acts| >= 2
    requires end == Carry(c, Done(d, None), acts) && Name(c, r.allocation.generation) !in d.containers
    ensures var g := r.allocation.generation;
            end == Done(d.(op := None, ledger := d.ledger[g := d.ledger[g].(destroyed := true)]),
                        Some(Answer(Dead(c, r.allocation))))
  {
    hide Name;
    var last := d.(op := Some(Op(r, NoteDestroyed)));
    assert end == Carry(c, Done(last, None), acts[1..]);
    CarryEnd(c, StepOp(c, last, acts[1]), acts[1..][1..]);
  }
}
