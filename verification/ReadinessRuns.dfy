/** What holds in every run of the readiness nodes. */
module ReadinessRuns {
  import Q = MpscQueue
  import opened ReadinessNodes
  import opened ReadinessSteps

  // ----- whole runs -----

  datatype Step =
    | New(n: nat, queue: bool, args: Args) | CloneHandle(n: nat, from: nat, h: nat) | Start(t: nat, op: Op)
    | Thread(t: nat)
    | EnterPoll | LeavePoll | Prepare | ClearSleep | Close | ConsumerStep

  predicate Enabled(s: State, step: Step) {
    match step
    case New(n, queue, _) => n !in s.nodes && (queue ==> !s.closing)
    case CloneHandle(n, from, h) =>
      && n in s.nodes && from != 0 && h != 0 && from in s.nodes[n].handles && h !in s.nodes[n].handles
      && NotEnding(s, n, from)
    case Start(t, op) => CanStart(s, t, op)
    case Thread(t) => t in s.ops && CanStep(s, t)
    case EnterPoll => s.cons.Out? && !s.closing
    case LeavePoll => s.cons.Polling? && !s.closing
    case Prepare => s.cons.Out? && !s.closing
    case ClearSleep => s.cons.Out? && !s.closing
    case Close => CanClose(s)
    case ConsumerStep => !s.cons.Out? && CanConsume(s)
  }

  /** The step function is defined; every reachable state satisfies this. */
  predicate CanStep(s: State, t: nat)
    requires t in s.ops
  {
    var op := s.ops[t];
    && op.n in s.nodes && |s.nodes[op.n].slots| == 3 && s.nodes[op.n].word.rd < 3 && s.nodes[op.n].word.wr < 3
    && (op.UpdWrite? ==> op.pos < 3) && (op.Pushing? ==> Q.Producer(t) in s.q.pushes)
  }

  predicate CanConsume(s: State) {
    match s.cons
    case Loading(n, _) => n in s.nodes
    case Casing(n, _, _, _) => n in s.nodes
    case Requeuing(n, _, _, _, _) => n in s.nodes
    case Reading(n, _, slot, _, _) => n in s.nodes && slot < |s.nodes[n].slots|
    case Dropping(n, _) => n in s.nodes
    case DrainRelease(n) => n in s.nodes
    case _ => true
  }

  function Apply(s: State, step: Step): State
    requires Enabled(s, step)
  {
    match step
    case New(n, queue, a) => Create(s, n, queue, a)
    case CloneHandle(n, _, h) => Clone(s, n, h)
    case Start(t, op) => SetOp(s, t, op)
    case Thread(t) => if s.ops[t].Pushing? then StepPushing(s, t) else StepOp(s, t)
    case EnterPoll => Goto(s, Polling(Q.Null))
    case LeavePoll => Goto(s, Out)
    case Prepare => Goto(s.(q := Q.StartPrepare(s.q)), Preparing)
    case ClearSleep => Goto(s.(q := Q.StartClear(s.q, false)), Preparing)
    case Close => StartClose(s)
    case ConsumerStep => StepCons(s)
  }

  lemma ThreadInv(s: State, t: nat)
    requires Inv(s) && t in s.ops && CanStep(s, t)
    ensures Inv(if s.ops[t].Pushing? then StepPushing(s, t) else StepOp(s, t))
  {
    match s.ops[t]
    case Enqueue(_, _, _) => EnqueueInv(s, t);
    case Pushing(_, _, _) => PushingInv(s, t);
    case GiveBack(_, _, _) => GiveBackInv(s, t);
    case DropFlag(_, _) => DropFlagInv(s, t);
    case DropHandle(_, _) => DropHandleInv(s, t);
    case _ => QuietOpInv(s, t);
  }

  lemma ConsumerInv(s: State)
    requires Inv(s) && !s.cons.Out? && CanConsume(s)
    ensures Inv(StepCons(s))
  {
    hide NodesOk, OpsOk, KnownOk, Exclusive, ClosedOk, Q.Inv, StepCons, StepQueue;
    match s.cons
    case Polling(_) => StartDequeueInv(s);
    case Dequeuing(_) => if s.q.cons.GotDequeued? { ReturnInv(s); } else { StepQueueInv(s); }
    case Loading(_, _) => LoadingInv(s);
    case Casing(n, _, seen, _) =>
      if seen.dropped || Consumed(seen) == seen || s.nodes[n].word != seen {
        CasingQuietInv(s);
      } else {
        CasingWinsInv(s);
      }
    case Requeue(_, _, _, _, _) => RequeueInv(s);
    case Requeuing(_, _, _, _, _) => if s.q.pushes[Q.Consumer].Pushed? { RequeuedInv(s); } else { RequeuingInv(s); }
    case Reading(_, _, _, _, _) => ReadingInv(s);
    case Dropping(_, _) => ReleaseInv(s);
    case Preparing => if s.q.cons.GotPrepared? || s.q.cons.GotCleared? { ReturnInv(s); } else { StepQueueInv(s); }
    case Closing => ClosingInv(s);
    case Draining =>
      if s.q.cons.Idle? {
        StartDequeueInv(s);
      } else if s.q.cons.GotDequeued? {
        ReturnInv(s);
      } else {
        StepQueueInv(s);
      }
    case DrainRelease(_) => ReleaseInv(s);
  }

  lemma StepInv(s: State, step: Step)
    requires Inv(s) && Enabled(s, step)
    ensures Inv(Apply(s, step))
  {
    hide NodeOk, OpOk, Q.Inv, CanStep;
    match step
    case New(n, queue, a) => CreateInv(s, n, queue, a);
    case CloneHandle(n, _, h) => CloneNodes(s, n, h); CloneRest(s, n, h);
    case Start(t, op) => StartInv(s, t, op);
    case Thread(t) => ThreadInv(s, t);
    case EnterPoll => EnterInv(s, Polling(Q.Null));
    case LeavePoll => EnterInv(s, Out);
    case Prepare => StartQueueInv(s);
    case ClearSleep => StartQueueInv(s);
    case Close => StartCloseInv(s);
    case ConsumerStep => ConsumerInv(s);
  }

  predicate IsRun(run: seq<State>, steps: seq<Step>) {
    && |run| == |steps| + 1
    && run[0] == Init()
    && (forall i :: 0 <= i < |steps| ==> Enabled(run[i], steps[i]) && run[i + 1] == Apply(run[i], steps[i]))
  }

  lemma {:induction false} RunInv(run: seq<State>, steps: seq<Step>, k: nat)
    requires IsRun(run, steps) && k < |run|
    ensures Inv(run[k])
  {
    hide Inv, Apply, Enabled;
    if k == 0 {
      InitInv();
    } else {
      RunInv(run, steps, k - 1);
      StepInv(run[k - 1], steps[k - 1]);
    }
  }

  /** In a reachable state no step is stuck on a missing node, slot or push. */
  lemma StepsAreDefined(s: State)
    requires Inv(s)
    ensures forall t :: t in s.ops ==> CanStep(s, t)
    ensures CanConsume(s)
  {
    forall t | t in s.ops ensures CanStep(s, t) { assert OpOk(s, t) && NodeOk(s, s.ops[t].n); }
  }

  /** All the consumer ever does to a node: its compare and swap, the owner, and giving back the
      queue's reference. */
  predicate ConsumerTouches(d: Node, d': Node) {
    && d' == d.(word := d'.word, owner := d'.owner, refs := d'.refs, qref := d'.qref)
    && (d'.word == d.word || d'.word == Consumed(d.word))
    && ((d'.refs == d.refs && d'.qref == d.qref) || (d'.refs == d.refs - 1 && d'.qref.Released?))
  }

  lemma NodeByQueue(s: State, n: nat)
    ensures StepQueue(s).nodes.Keys == s.nodes.Keys
    ensures n in s.nodes ==> StepQueue(s).nodes[n] == s.nodes[n].(owner := StepQueue(s).nodes[n].owner)
  {
    hide Q.StepCons, Q.StepPush;
  }

  lemma NodeInQueue(s: State, n: nat)
    requires (s.cons.Dequeuing? || s.cons.Preparing? || s.cons.Draining?) && (n in s.nodes || n in StepCons(s).nodes)
    ensures n in s.nodes && n in StepCons(s).nodes && ConsumerTouches(s.nodes[n], StepCons(s).nodes[n])
  {
    hide Consumed, StepQueue;
    NodeByQueue(s, n);
  }

  lemma NodeByCasing(s: State, n: nat)
    requires s.cons.Casing? && CanConsume(s) && (n in s.nodes || n in StepCons(s).nodes)
    ensures n in s.nodes && n in StepCons(s).nodes && ConsumerTouches(s.nodes[n], StepCons(s).nodes[n])
  {
    hide Consumed;
  }

  lemma NodeByRequeuing(s: State, n: nat)
    requires s.cons.Requeuing? && CanConsume(s) && (n in s.nodes || n in StepCons(s).nodes)
    ensures n in s.nodes && n in StepCons(s).nodes && ConsumerTouches(s.nodes[n], StepCons(s).nodes[n])
  {
    hide Consumed, Q.StepPush, Q.Finish;
  }

  lemma NodeOutsideQueue(s: State, n: nat)
    requires !(s.cons.Dequeuing? || s.cons.Preparing? || s.cons.Draining?)
    requires CanConsume(s) && (n in s.nodes || n in StepCons(s).nodes)
    ensures n in s.nodes && n in StepCons(s).nodes && ConsumerTouches(s.nodes[n], StepCons(s).nodes[n])
  {
    hide Consumed, AfterCas, HandToChain, Q.StepPush, Q.Finish;
    if s.cons.Casing? {
      NodeByCasing(s, n);
    }
    if s.cons.Requeuing? { NodeByRequeuing(s, n); }
  }

  lemma NodeByConsumer(s: State, n: nat)
    requires CanConsume(s) && (n in s.nodes || n in StepCons(s).nodes)
    ensures n in s.nodes && n in StepCons(s).nodes && ConsumerTouches(s.nodes[n], StepCons(s).nodes[n])
  {
    hide StepCons, ConsumerTouches;
    if s.cons.Dequeuing? || s.cons.Preparing? || s.cons.Draining? {
      NodeInQueue(s, n);
    } else {
      NodeOutsideQueue(s, n);
    }
  }

  // ----- the queued bit -----

  /** Some thread owes the push of node `n`. */
  ghost predicate SomeoneOwes(s: State, n: nat) { exists t :: t in s.ops && s.ops[t].n == n && Owing(s, t) }

  /** While the queue is open, the queued bit of a live associated node is set exactly when the
      node is in the chain, a thread owes its push, or the consumer holds it. */
  lemma QueuedBitHasAnOwner(run: seq<State>, steps: seq<Step>, k: nat, n: nat)
    requires IsRun(run, steps) && k < |run| && !run[k].closing && n in run[k].nodes
    requires run[k].nodes[n].associated && !run[k].nodes[n].word.dropped
    ensures run[k].nodes[n].word.queued <==> Q.Node(n) in run[k].q.chain || SomeoneOwes(run[k], n) || Holds(run[k], n)
  {
    RunInv(run, steps, k);
    var s := run[k];
    assert NodeOk(s, n);
    if SomeoneOwes(s, n) {
      var t :| t in s.ops && s.ops[t].n == n && Owing(s, t);
      assert OpOk(s, t);
    }
  }

  /** No node the consumer holds is in the chain. */
  lemma ChainAndConsumerExclude(run: seq<State>, steps: seq<Step>, k: nat, n: nat)
    requires IsRun(run, steps) && k < |run| && n in run[k].nodes
    ensures !(Q.Node(n) in run[k].q.chain && Holds(run[k], n))
  {
    RunInv(run, steps, k);
    assert NodeOk(run[k], n);
  }

  /** A thread that owes the push excludes both, and at most one thread owes it, so no node is
      ever pushed while it is in the chain. */
  lemma OneOwnerAtATime(run: seq<State>, steps: seq<Step>, k: nat, t: nat)
    requires IsRun(run, steps) && k < |run| && t in run[k].ops && Owing(run[k], t)
    ensures Q.Node(run[k].ops[t].n) !in run[k].q.chain && !Holds(run[k], run[k].ops[t].n)
    ensures forall u :: u in run[k].ops && Owing(run[k], u) && run[k].ops[u].n == run[k].ops[t].n ==> u == t
  {
    RunInv(run, steps, k);
    assert OpOk(run[k], t) && NodeOk(run[k], run[k].ops[t].n);
    forall u | u in run[k].ops && Owing(run[k], u) && run[k].ops[u].n == run[k].ops[t].n ensures u == t {
      assert OpOk(run[k], u);
    }
  }

  /** Whenever a node's code reaches `enqueue_node`, the queue's own obligation holds: the
      theorems of `MpscQueue` apply to every run of the nodes. */
  lemma PushesMeetTheObligation(run: seq<State>, steps: seq<Step>, k: nat, t: nat)
    requires IsRun(run, steps) && k < |run| && t in run[k].ops && run[k].ops[t].Enqueue?
    requires run[k].ops[t].n in run[k].nodes
    requires run[k].nodes[run[k].ops[t].n].associated
    ensures Q.CanBegin(run[k].q, Q.Producer(t), Q.Node(run[k].ops[t].n))
    ensures Q.Inv(run[k].q)
  {
    RunInv(run, steps, k);
    MayPush(run[k], t);
  }

  // ----- reference counts -----

  /** A node that anyone can still reach has not been freed. */
  lemma NeverFreedWhileReachable(run: seq<State>, steps: seq<Step>, k: nat, n: nat)
    requires IsRun(run, steps) && k < |run| && n in run[k].nodes
    requires Q.Node(n) in run[k].q.chain || Holds(run[k], n) || SomeoneUses(run[k], n)
             || (run[k].cons.Reading? && run[k].cons.n == n)
    ensures run[k].nodes[n].refs >= 1
  {
    RunInv(run, steps, k);
    Reachable(run[k], n);
  }

  ghost predicate SomeoneUses(s: State, n: nat) { exists t :: t in s.ops && s.ops[t].n == n }

  lemma Reachable(s: State, n: nat)
    requires NodesOk(s) && OpsOk(s) && ConsNodeOk(s) && n in s.nodes
    requires Q.Node(n) in s.q.chain || Holds(s, n) || SomeoneUses(s, n) || (s.cons.Reading? && s.cons.n == n)
    ensures s.nodes[n].refs >= 1
  {
    var d := s.nodes[n];
    assert NodeOk(s, n);
    if SomeoneUses(s, n) {
      var t :| t in s.ops && s.ops[t].n == n;
      assert OpOk(s, t);
      assert s.ops[t].h in d.handles;
    }
  }

  /** A node is freed exactly when its last handle is gone and the queue holds no reference. */
  lemma FreedExactlyWhenUnused(run: seq<State>, steps: seq<Step>, k: nat, n: nat)
    requires IsRun(run, steps) && k < |run| && n in run[k].nodes
    ensures run[k].nodes[n].refs == |run[k].nodes[n].handles| + (if run[k].nodes[n].qref.Held? then 1 else 0)
    ensures run[k].nodes[n].refs == 0 <==> run[k].nodes[n].handles == {} && !run[k].nodes[n].qref.Held?
  {
    RunInv(run, steps, k);
    assert NodeOk(run[k], n);
  }

  /** A push turned away by the closed queue still finds two references: a handle's and the
      queue's own, which it then gives back. */
  lemma RejectedPushHasTwoReferences(run: seq<State>, steps: seq<Step>, k: nat, t: nat)
    requires IsRun(run, steps) && k < |run| && t in run[k].ops && run[k].ops[t].GiveBack?
    ensures run[k].ops[t].n in run[k].nodes && run[k].nodes[run[k].ops[t].n].refs >= 2
  {
    RunInv(run, steps, k);
    var s := run[k];
    assert OpOk(s, t) && NodeOk(s, s.ops[t].n) && Owing(s, t);
    ClosedIsCounted(s, s.ops[t].n);
    assert s.ops[t].h in s.nodes[s.ops[t].n].handles;
  }

  lemma ClosedIsCounted(s: State, n: nat)
    requires NodesOk(s) && OpsOk(s) && s.closing && n in s.nodes
    ensures !s.nodes[n].qref.Claimed?
  {
    assert NodeOk(s, n);
    forall t | t in s.ops ensures !s.ops[t].UpdCount? { assert OpOk(s, t); }
  }

  /** What a step may make of the queue's reference: one that is counted stays so or is given
      back, no handle going at the same time; one that is given back stays so. */
  predicate RefMoves(d: Node, d': Node) {
    && (d.qref.Held? ==> d'.qref.Held? || (d'.qref.Released? && d'.handles == d.handles))
    && (d.qref.Released? ==> d'.qref.Released?)
  }

  lemma RefMovesByThread(s: State, t: nat, n: nat)
    requires t in s.ops && CanStep(s, t) && OpOk(s, t) && n in s.nodes && CellOk(s.nodes[n])
    ensures n in StepOp(s, t).nodes && RefMoves(s.nodes[n], StepOp(s, t).nodes[n])
  {
  }

  lemma RefMovesByPush(s: State, t: nat, n: nat)
    requires t in s.ops && s.ops[t].Pushing? && CanStep(s, t) && n in s.nodes
    ensures n in StepPushing(s, t).nodes && RefMoves(s.nodes[n], StepPushing(s, t).nodes[n])
  {
    hide Q.StepPush, Q.Finish;
  }

  lemma RefMovesByStep(s: State, step: Step, n: nat)
    requires Inv(s) && Enabled(s, step) && n in s.nodes
    ensures n in Apply(s, step).nodes && RefMoves(s.nodes[n], Apply(s, step).nodes[n])
  {
    hide Exclusive, ConsQueueOk, ConsNodeOk, ClosedOk, KnownOk, Q.Inv, StepOp, StepPushing, StepCons, OpOk, NodeOk,
         CanStart, NotEnding, CanClose;
    match step
    case Thread(t) =>
      assert OpOk(s, t);
      if s.ops[t].Pushing? { RefMovesByPush(s, t, n); } else { CellsOk(s, n); RefMovesByThread(s, t, n); }
    case ConsumerStep => NodeByConsumer(s, n);
    case _ =>
  }

  lemma CellsOk(s: State, n: nat)
    requires NodesOk(s) && n in s.nodes
    ensures CellOk(s.nodes[n])
  {
    assert NodeOk(s, n);
  }

  /** The step takes one off the count of node `n`, though no handle goes. */
  predicate GivesBack(s: State, step: Step, n: nat) {
    && Enabled(s, step) && n in s.nodes && n in Apply(s, step).nodes
    && Apply(s, step).nodes[n].handles == s.nodes[n].handles
    && Apply(s, step).nodes[n].refs < s.nodes[n].refs
  }

  /** Exactly the steps that find the queue's reference counted and leave it given back do so. */
  lemma GivesBackExactly(s: State, step: Step, n: nat)
    requires Inv(s) && Enabled(s, step) && n in s.nodes
    ensures n in Apply(s, step).nodes
    ensures GivesBack(s, step, n) <==> s.nodes[n].qref.Held? && Apply(s, step).nodes[n].qref.Released?
  {
    hide Apply, Enabled;
    RefMovesByStep(s, step, n);
    StepInv(s, step);
    assert NodeOk(s, n) && NodeOk(Apply(s, step), n);
  }

  lemma {:induction false} ReleasedStays(run: seq<State>, steps: seq<Step>, j: nat, k: nat, n: nat)
    requires IsRun(run, steps) && j <= k < |run| && n in run[j].nodes && run[j].nodes[n].qref.Released?
    ensures n in run[k].nodes && run[k].nodes[n].qref.Released?
  {
    hide Inv, Apply, Enabled;
    if j < k {
      ReleasedStays(run, steps, j, k - 1, n);
      RunInv(run, steps, k - 1);
      RefMovesByStep(run[k - 1], steps[k - 1], n);
    }
  }

  /** Over every run, the queue gives a node's reference back at most once. */
  lemma ReleasedOnce(run: seq<State>, steps: seq<Step>, j: nat, k: nat, n: nat)
    requires IsRun(run, steps) && j < k < |steps| && GivesBack(run[j], steps[j], n)
    ensures !GivesBack(run[k], steps[k], n)
  {
    hide Inv, Apply, Enabled;
    RunInv(run, steps, j);
    RunInv(run, steps, k);
    GivesBackExactly(run[j], steps[j], n);
    ReleasedStays(run, steps, j + 1, k, n);
    GivesBackExactly(run[k], steps[k], n);
  }

  /** Once a node is dropped and neither the chain, nor a thread, nor the consumer is in charge of
      it any more, the queue has given its reference back, and with the last handle it is freed. */
  lemma DroppedIsReleased(run: seq<State>, steps: seq<Step>, k: nat, n: nat)
    requires IsRun(run, steps) && k < |run| && n in run[k].nodes
    requires run[k].nodes[n].associated && run[k].nodes[n].word.dropped
    requires Q.Node(n) !in run[k].q.chain && !SomeoneOwes(run[k], n) && !Holds(run[k], n)
    ensures run[k].nodes[n].qref.Released? && run[k].nodes[n].refs == |run[k].nodes[n].handles|
  {
    RunInv(run, steps, k);
    var s := run[k];
    assert NodeOk(s, n);
    assert s.nodes[n].owner.By? ==> SomeoneOwes(s, n);
  }

  // ----- level-triggered readiness -----

  /** A level-triggered node with something to report has its queued bit set. */
  predicate LevelOk(w: Word) { !w.edge && w.Effective() != {} ==> w.queued }

  predicate LevelsOk(s: State) { forall n :: n in s.nodes ==> LevelOk(s.nodes[n].word) }

  lemma ConsumedLevel(w: Word)
    requires LevelOk(w)
    ensures LevelOk(Consumed(w))
  {
  }

  lemma LevelByThread(s: State, t: nat)
    requires LevelsOk(s) && OpsOk(s) && t in s.ops && CanStep(s, t)
    ensures LevelsOk(StepOp(s, t))
  {
    assert OpOk(s, t) && LevelOk(s.nodes[s.ops[t].n].word);
  }

  lemma LevelByConsumer(s: State)
    requires LevelsOk(s) && CanConsume(s)
    ensures LevelsOk(StepCons(s))
  {
    hide StepCons, LevelOk;
    forall n | n in StepCons(s).nodes ensures LevelOk(StepCons(s).nodes[n].word) {
      NodeByConsumer(s, n);
      ConsumedLevel(s.nodes[n].word);
    }
  }

  lemma LevelStep(s: State, step: Step)
    requires Inv(s) && LevelsOk(s) && Enabled(s, step)
    ensures LevelsOk(Apply(s, step))
  {
    hide NodesOk, Exclusive, ConsQueueOk, ConsNodeOk, ClosedOk, KnownOk, Q.Inv;
    match step
    case Thread(t) => if s.ops[t].Pushing? {} else { LevelByThread(s, t); }
    case ConsumerStep => LevelByConsumer(s);
    case _ =>
  }

  /** Level-triggered readiness is never forgotten: as long as a node that is not edge-triggered
      has readiness its registration asks for, the node is queued, owed to the queue, or in the
      consumer's hands. */
  lemma {:induction false} LevelReadinessStaysQueued(run: seq<State>, steps: seq<Step>, k: nat)
    requires IsRun(run, steps) && k < |run|
    ensures LevelsOk(run[k])
  {
    hide Inv, Apply, Enabled;
    if k > 0 {
      LevelReadinessStaysQueued(run, steps, k - 1);
      RunInv(run, steps, k - 1);
      LevelStep(run[k - 1], steps[k - 1]);
    }
  }

  // ----- tokens -----

  /** An updater writes neither the published slot, nor the read position, nor the slot the
      consumer is about to read. */
  lemma UpdateWritesAFreeSlot(run: seq<State>, steps: seq<Step>, k: nat, t: nat)
    requires IsRun(run, steps) && k < |run| && t in run[k].ops && run[k].ops[t].UpdWrite?
    requires run[k].ops[t].n in run[k].nodes
    ensures run[k].ops[t].pos != run[k].nodes[run[k].ops[t].n].word.wr
    ensures run[k].ops[t].pos != run[k].nodes[run[k].ops[t].n].word.rd
    ensures run[k].cons.Reading? && run[k].cons.n == run[k].ops[t].n ==> run[k].ops[t].pos != run[k].cons.slot
  {
    RunInv(run, steps, k);
    assert OpOk(run[k], t);
  }

  /** Only one thread at a time is between taking and releasing a node's update lock. */
  lemma OneUpdaterAtATime(run: seq<State>, steps: seq<Step>, k: nat, t: nat, u: nat)
    requires IsRun(run, steps) && k < |run| && t in run[k].ops && u in run[k].ops
    requires InSection(run[k].ops[t]) && InSection(run[k].ops[u]) && run[k].ops[t].n == run[k].ops[u].n
    ensures t == u
  {
    RunInv(run, steps, k);
    assert OpOk(run[k], t) && OpOk(run[k], u);
  }

  /** The token of a delivered event was installed by a registration or a completed update, and
      it is the one the consumer fixed when it took the node off the queue. */
  lemma EventCarriesInstalledToken(run: seq<State>, steps: seq<Step>, k: nat)
    requires IsRun(run, steps) && k < |run| && run[k].cons.Reading? && run[k].cons.ready != {}
    ensures run[k].cons.n in run[k].nodes && run[k].cons.slot < |run[k].nodes[run[k].cons.n].slots|
    ensures run[k].cons.token in run[k].nodes[run[k].cons.n].tokens
    ensures StepCons(run[k]).events == run[k].events + [Event(run[k].cons.n, run[k].cons.ready, run[k].cons.token)]
  {
    RunInv(run, steps, k);
  }

  /** That token is the latest one installed at the moment of the consumer's compare and swap. */
  lemma SwapFixesLatestToken(run: seq<State>, steps: seq<Step>, k: nat)
    requires IsRun(run, steps) && k < |run| && run[k].cons.Casing? && run[k].cons.n in run[k].nodes
    requires !run[k].cons.seen.dropped && Consumed(run[k].cons.seen) != run[k].cons.seen
    requires run[k].nodes[run[k].cons.n].word == run[k].cons.seen
    ensures StepCons(run[k]).cons.Requeue? || StepCons(run[k]).cons.Reading?
    ensures StepCons(run[k]).cons.token == LastToken(run[k].nodes[run[k].cons.n])
    ensures run[k].cons.n in StepCons(run[k]).nodes
    ensures StepCons(run[k]).cons.slot < |StepCons(run[k]).nodes[run[k].cons.n].slots|
    ensures StepCons(run[k]).nodes[run[k].cons.n].slots[StepCons(run[k]).cons.slot]
              == LastToken(run[k].nodes[run[k].cons.n])
  {
    RunInv(run, steps, k);
    CasingWinsInv(run[k]);
    assert NodeOk(run[k], run[k].cons.n);
  }
}
