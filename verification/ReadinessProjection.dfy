/** The readiness nodes are a client of the queue: seen through the queue alone, every run of the
    nodes is a run of `MpscQueue`. What the two together promise a sleeping consumer, and what is
    left when it has closed the queue. */
module ReadinessProjection {
  import Q = MpscQueue
  import opened ReadinessNodes
  import opened ReadinessSteps
  import opened ReadinessRuns

  /** One step of the queue, or none. */
  datatype Trace = Stays | Moves(step: Q.Step)

  predicate Follows(q: Q.State, trace: Trace, q': Q.State) {
    match trace
    case Stays => q' == q
    case Moves(step) => Q.Enabled(q, step) && q' == Q.Apply(q, step)
  }

  lemma ThreadFollows(s: State, t: nat) returns (trace: Trace)
    requires Inv(s) && t in s.ops && CanStep(s, t)
    ensures Follows(s.q, trace, (if s.ops[t].Pushing? then StepPushing(s, t) else StepOp(s, t)).q)
  {
    hide NodesOk, Q.Inv;
    assert OpOk(s, t);
    if s.ops[t].Enqueue? && s.nodes[s.ops[t].n].associated {
      MayPush(s, t);
      trace := Moves(Q.BeginPush(Q.Producer(t), Q.Node(s.ops[t].n)));
    } else if s.ops[t].Pushing? {
      var p := s.q.pushes[Q.Producer(t)];
      trace := Moves(if p.Pushed? || p.Rejected? then Q.FinishPush(Q.Producer(t)) else Q.DoPush(Q.Producer(t)));
    } else {
      trace := Stays;
    }
  }

  /** Inside the queue's own operations. */
  lemma QueueFollows(s: State) returns (trace: Trace)
    requires ConsQueueOk(s) && InQueue(s)
    ensures Follows(s.q, trace, StepQueue(s).q)
  {
    if Q.Consumer in s.q.pushes && !(s.q.cons.DeqPushEnd? && s.q.pushes[Q.Consumer].Pushed?) {
      trace := Moves(Q.DoPush(Q.Consumer));
    } else {
      trace := Moves(Q.DoCons);
    }
  }

  /** The consumer's own pushes, and its calls and returns. */
  lemma CallFollows(s: State) returns (trace: Trace)
    requires Inv(s) && CanConsume(s) && !InQueue(s) && !s.cons.Out?
    ensures Follows(s.q, trace, StepCons(s).q)
  {
    hide NodesOk, OpsOk, Exclusive, ClosedOk, KnownOk, Q.Inv, ConsNodeOk;
    match s.cons
    case Polling(until) => trace := Moves(Q.BeginDequeue(until));
    case Dequeuing(_) => trace := Moves(Q.Return);
    case Preparing => trace := Moves(Q.Return);
    case Draining => trace := Moves(if s.q.cons.Idle? then Q.BeginDequeue(Q.Null) else Q.Return);
    case Requeue(n, _, _, _, _) =>
      MayRequeue(s);
      trace := Moves(Q.BeginPush(Q.Consumer, Q.Node(n)));
    case Requeuing(_, _, _, _, _) =>
      trace := Moves(if s.q.pushes[Q.Consumer].Pushed? then Q.FinishPush(Q.Consumer) else Q.DoPush(Q.Consumer));
    case Closing =>
      trace := Moves(if s.q.pushes[Q.Consumer].Pushed? then Q.FinishPush(Q.Consumer) else Q.DoPush(Q.Consumer));
    case _ => trace := Stays;
  }

  /** Every step of the nodes leaves the queue alone or is exactly one step of it. */
  lemma StepFollows(s: State, step: Step) returns (trace: Trace)
    requires Inv(s) && Enabled(s, step)
    ensures Follows(s.q, trace, Apply(s, step).q)
  {
    hide NodesOk, OpsOk, Exclusive, ClosedOk, KnownOk, Q.Inv, ConsNodeOk, StepOp, StepPushing, StepCons, CanConsume,
         CanStep, CanStart;
    match step
    case Thread(t) => trace := ThreadFollows(s, t);
    case Prepare => trace := Moves(Q.BeginPrepare);
    case ClearSleep => trace := Moves(Q.BeginClear);
    case Close => trace := Moves(Q.BeginPush(Q.Consumer, Q.Closed));
    case ConsumerStep => if InQueue(s) { StepQueueInv(s); trace := QueueFollows(s); } else { trace := CallFollows(s); }
    case _ => trace := Stays;
  }

  /** `qrun` is `run`, seen through the queue, without the steps that leave the queue alone:
      `at[i]` is where it is when the nodes are in `run[i]`. */
  ghost predicate Projects(run: seq<State>, qrun: seq<Q.State>, at: seq<nat>) {
    && |at| == |run| > 0 && at[0] == 0 && |qrun| == at[|at| - 1] + 1
    && (forall i :: 0 <= i < |at| ==> at[i] < |qrun| && qrun[at[i]] == run[i].q)
    && (forall i, j :: 0 <= i < |at| && j == i + 1 < |at| ==> at[i] <= at[j] <= at[i] + 1)
  }

  /** Every run of the nodes is a run of the queue, so whatever holds in all runs of the queue holds
      here: first in, first out, one chain, no lost wakeup. */
  lemma {:induction false} Projection(run: seq<State>, steps: seq<Step>, k: nat)
    returns (qrun: seq<Q.State>, qsteps: seq<Q.Step>, at: seq<nat>)
    requires IsRun(run, steps) && k < |run|
    ensures Q.IsRun(qrun, qsteps) && Projects(run[..k + 1], qrun, at)
  {
    hide Inv, Apply, Enabled, Q.Apply, Q.Enabled;
    if k == 0 {
      qrun, qsteps, at := [run[0].q], [], [0];
    } else {
      qrun, qsteps, at := Projection(run, steps, k - 1);
      RunInv(run, steps, k - 1);
      var trace := StepFollows(run[k - 1], steps[k - 1]);
      if trace.Moves? {
        qrun, qsteps, at := qrun + [run[k].q], qsteps + [trace.step], at + [at[k - 1] + 1];
      } else {
        at := at + [at[k - 1]];
      }
    }
  }

  // ----- a sleeping consumer -----

  /** Only the consumer that closes the queue ever pushes onto the sleep marker itself. */
  predicate OnlyCloserFirst(s: State) { forall e :: e in s.q.first && s.q.first[e] == Q.Consumer ==> s.closing }

  lemma FirstFollows(q: Q.State, trace: Trace, q': Q.State)
    requires Follows(q, trace, q')
    ensures q'.first == q.first
            || (trace.Moves? && trace.step.DoPush? && trace.step.t in q.pushes && q.pushes[trace.step.t].Try?
                && q.pushes[trace.step.t].prev.Sleep? && q'.first == q.first[q.epoch := trace.step.t])
  {
    hide Q.CanBegin, Q.CanFinish, Q.StepCons;
    if trace.Moves? && trace.step.DoCons? { FirstByCons(q); }
  }

  lemma FirstByCons(q: Q.State)
    ensures Q.StepCons(q).first == q.first
  {
    hide Q.AfterNext, Q.Take, Q.NextOf, Q.Finish, Q.Begin;
    FirstByNext(q, Q.NextOf(q, q.tail));
  }

  lemma FirstByNext(q: Q.State, next: Q.Ptr)
    ensures Q.Take(q, next).first == q.first && forall until :: Q.AfterNext(q, until, next).first == q.first
    ensures Q.Begin(q, Q.Consumer, Q.End).first == q.first
    ensures Q.Consumer in q.pushes ==> Q.Finish(q, Q.Consumer).first == q.first
  {
  }

  lemma ClosingStays(s: State, step: Step)
    requires Enabled(s, step)
    ensures s.closing ==> Apply(s, step).closing
  {
    hide Q.StepCons, Q.StepPush, Q.Finish, Consumed;
  }

  lemma OnlyCloserStep(s: State, step: Step)
    requires Inv(s) && OnlyCloserFirst(s) && Enabled(s, step)
    ensures OnlyCloserFirst(Apply(s, step))
  {
    hide NodesOk, OpsOk, Exclusive, ClosedOk, KnownOk, ConsNodeOk, Apply, Enabled, Follows;
    var trace := StepFollows(s, step);
    FirstFollows(s.q, trace, Apply(s, step).q);
    ClosingStays(s, step);
    if Q.Consumer in s.q.pushes && s.q.pushes[Q.Consumer].Try? && s.q.pushes[Q.Consumer].prev.Sleep? {
      assert Q.PushOk(s.q, Q.Consumer);
      assert s.closing;
    }
  }

  lemma {:induction false} OnlyCloserRun(run: seq<State>, steps: seq<Step>, k: nat)
    requires IsRun(run, steps) && k < |run|
    ensures OnlyCloserFirst(run[k])
  {
    hide Inv, Apply, Enabled, OnlyCloserFirst;
    if k == 0 {
      StartsWithoutCloser();
    } else {
      OnlyCloserRun(run, steps, k - 1);
      RunInv(run, steps, k - 1);
      OnlyCloserStep(run[k - 1], steps[k - 1]);
    }
  }

  lemma StartsWithoutCloser()
    ensures OnlyCloserFirst(Init())
  {
  }

  /** Some thread is inside `enqueue_node` and will call the awakener for the present sleep. */
  ghost predicate ThreadIsWaking(s: State) {
    exists t :: t in s.ops && s.ops[t].Pushing? && Q.Producer(t) in s.q.pushes
                && Q.WakesFor(s.q.pushes[Q.Producer(t)], s.q.epoch)
  }

  /** With the sleep marker the tail and the consumer asleep, no node with its queued bit set is
      forgotten: a thread owes its push, or the awakener was called for this sleep, or a thread is
      on its way to calling it. */
  lemma SleeperIsWoken(run: seq<State>, steps: seq<Step>, k: nat, n: nat)
    requires IsRun(run, steps) && k < |run| && run[k].cons.Out? && !run[k].closing && run[k].q.tail == Q.Sleep
    requires n in run[k].nodes && run[k].nodes[n].associated
    requires run[k].nodes[n].word.queued && !run[k].nodes[n].qref.Released?
    ensures SomeoneOwes(run[k], n) || run[k].q.epoch in run[k].q.called || ThreadIsWaking(run[k])
  {
    RunInv(run, steps, k);
    var s := run[k];
    assert NodeOk(s, n);
    if s.nodes[n].owner.By? {
      assert SomeoneOwes(s, n);
    } else {
      OnlyCloserRun(run, steps, k);
      Q.AsleepWakes(s.q);
      assert Q.Node(n) in s.q.chain && |s.q.chain| > 1;
      if s.q.epoch !in s.q.called {
        var t :| t in s.q.pushes && t.Producer? && Q.WakesFor(s.q.pushes[t], s.q.epoch);
        assert OpOk(s, t.t);
      }
    }
  }

  // ----- the queue after its consumer is gone -----

  /** Once `drop` has drained the queue, exactly these nodes still count the queue's reference: those
      not queued, those whose push some thread still owes, and those left behind in the chain. */
  lemma KeepsReference(run: seq<State>, steps: seq<Step>, k: nat, n: nat)
    requires IsRun(run, steps) && k < |run| && run[k].closing && run[k].cons.Out?
    requires n in run[k].nodes && run[k].nodes[n].associated
    ensures run[k].nodes[n].qref.Held?
            <==> !run[k].nodes[n].word.queued || SomeoneOwes(run[k], n) || Q.Node(n) in run[k].q.chain
  {
    RunInv(run, steps, k);
    var s := run[k];
    assert NodeOk(s, n);
    ClosedIsCounted(s, n);
    if t :| t in s.ops && s.ops[t].n == n && Owing(s, t) { assert OpOk(s, t); }
  }

  /** From the winning CAS of the closed marker on, that marker is the head. */
  predicate ClosedHead(s: State) {
    && (s.closing && !s.cons.Closing? ==> s.q.head == Q.Closed)
    && (s.cons.Closing? ==> Q.Consumer in s.q.pushes && Closer(s.q, s.q.pushes[Q.Consumer]))
  }

  predicate Closer(q: Q.State, p: Q.Push) {
    if Q.Owes(p) then p.Try? ==> !p.prev.Closed? else !p.Rejected? && q.head == Q.Closed
  }

  ghost predicate HasNode(chain: seq<Q.Ptr>) { exists n :: Q.Node(n) in chain }

  /** The drain is about to end, or has ended. */
  predicate Ended(s: State) {
    s.cons.Out?
    || (s.cons.Draining? && (s.q.cons.ClearStore? || s.q.cons.ClearCas? || s.q.cons == Q.GotDequeued(Q.Empty)))
  }

  ghost predicate DrainOk(s: State) {
    && ClosedHead(s)
    && (s.closing && Ended(s) ==> s.q.tail == Q.Closed || HasNode(s.q.chain))
    && (s.cons.Draining? && (s.q.cons.Deq? || s.q.cons.DeqSkipped?) ==> s.q.cons.until == Q.Null)
  }

  /** What threads do to the queue never concerns its consumer, and a closed queue does not grow. */
  predicate Shut(q: Q.State, q': Q.State) {
    && q'.cons == q.cons && q'.tail == q.tail && (q.head == Q.Closed ==> q'.chain == q.chain && q'.head == q.head)
    && (Q.Consumer in q.pushes ==> Q.Consumer in q'.pushes && q'.pushes[Q.Consumer] == q.pushes[Q.Consumer])
  }

  lemma PushShut(q: Q.State, t: nat)
    requires Q.Producer(t) in q.pushes
    ensures Shut(q, Q.StepPush(q, Q.Producer(t))) && Shut(q, Q.Finish(q, Q.Producer(t)))
  {
  }

  lemma ThreadShut(s: State, t: nat)
    requires t in s.ops && CanStep(s, t)
    ensures var s' := if s.ops[t].Pushing? then StepPushing(s, t) else StepOp(s, t);
            Shut(s.q, s'.q) && s'.cons == s.cons && s'.closing == s.closing
  {
    hide Q.StepPush, Q.Finish;
    if s.ops[t].Pushing? {
      PushShut(s.q, t);
      hide Shut;
    }
  }

  lemma ShutDrains(s: State, s': State)
    requires DrainOk(s) && Shut(s.q, s'.q) && s'.cons == s.cons && s'.closing == s.closing
    requires s.cons.Closing? ==> s.closing
    ensures DrainOk(s')
  {
  }

  /** An empty answer behind a marker that is not the closed one leaves a half-pushed node. */
  lemma EmptyLeaves(q: Q.State)
    requires Q.ChainOk(q) && Q.PushesOk(q) && q.head == Q.Closed && Q.Consumer !in q.pushes
    requires Q.NextOf(q, q.tail) == Q.Null
    ensures q.tail == Q.Closed || HasNode(q.chain)
  {
    if q.tail != Q.Closed {
      assert Q.LinkOk(q, 0);
      assert Q.PushOk(q, q.owed[q.tail]);
      assert q.chain[1].Node? && q.chain[1] in q.chain;
      assert Q.Node(q.chain[1].id) in q.chain;
    }
  }

  lemma CloserPushes(q: Q.State)
    requires Q.ChainOk(q) && Q.Consumer in q.pushes && Q.PushOk(q, Q.Consumer) && q.pushes[Q.Consumer].node == Q.Closed
    requires Closer(q, q.pushes[Q.Consumer])
    ensures Q.Consumer in Q.StepPush(q, Q.Consumer).pushes
    ensures Closer(Q.StepPush(q, Q.Consumer), Q.StepPush(q, Q.Consumer).pushes[Q.Consumer])
  {
    assert q.head in q.chain;
    hide Q.ChainOk, Q.PushOk;
  }

  lemma CloserStep(s: State)
    requires Q.ChainOk(s.q) && Q.PushesOk(s.q) && ConsQueueOk(s) && s.cons.Closing? && DrainOk(s)
    ensures DrainOk(StepCons(s))
  {
    assert Q.PushOk(s.q, Q.Consumer);
    hide Q.ChainOk, Q.PushesOk, Q.PushOk, HasNode, Q.StepPush;
    if !s.q.pushes[Q.Consumer].Pushed? { CloserPushes(s.q); }
  }

  /** The same, seen through the queue. */
  predicate Stopped(q: Q.State) { q.cons.ClearStore? || q.cons.ClearCas? || q.cons == Q.GotDequeued(Q.Empty) }

  ghost predicate DrainsOk(q: Q.State) {
    && q.head == Q.Closed
    && (Stopped(q) ==> q.tail == Q.Closed || HasNode(q.chain))
    && (q.cons.Deq? || q.cons.DeqSkipped? ==> q.cons.until == Q.Null)
  }

  lemma DrainLooks(q: Q.State)
    requires Q.ChainOk(q) && Q.PushesOk(q) && DrainsOk(q) && Q.Consumer !in q.pushes
    requires q.cons.Deq? || q.cons.DeqSkipped?
    ensures DrainsOk(Q.StepCons(q))
  {
    if q.cons.Deq? && Q.Marker(q.tail) && Q.NextOf(q, q.tail) == Q.Null { EmptyLeaves(q); }
    assert q.tail != Q.Null by { assert q.tail in q.chain; }
    hide Q.ChainOk, Q.PushesOk;
  }

  lemma DrainGoesOn(q: Q.State)
    requires DrainsOk(q) && DequeueCons(q.cons) && !q.cons.GotDequeued? && !q.cons.Deq? && !q.cons.DeqSkipped?
    ensures DrainsOk(Q.StepCons(q))
  {
  }

  lemma DrainPushes(q: Q.State)
    requires DrainsOk(q) && Q.Consumer in q.pushes && q.cons.DeqPushEnd?
    ensures DrainsOk(Q.StepPush(q, Q.Consumer))
  {
  }

  lemma DrainQueueStep(s: State)
    requires Inv(s) && s.cons.Draining? && InQueue(s) && DrainsOk(s.q)
    ensures DrainsOk(StepQueue(s).q)
  {
    hide NodesOk, OpsOk, Exclusive, ClosedOk, KnownOk, ConsNodeOk, DrainsOk, Q.StepCons, Q.StepPush;
    if Q.Consumer in s.q.pushes && !s.q.pushes[Q.Consumer].Pushed? {
      DrainPushes(s.q);
    } else if s.q.cons.Deq? || s.q.cons.DeqSkipped? {
      DrainLooks(s.q);
    } else {
      DrainGoesOn(s.q);
    }
  }

  lemma DrainStep(s: State)
    requires Inv(s) && s.cons.Draining? && DrainOk(s)
    ensures DrainOk(StepCons(s))
  {
    hide NodesOk, OpsOk, Exclusive, ClosedOk, KnownOk, ConsNodeOk, Q.Inv, HasNode, Q.StepCons, Q.StepPush;
    if InQueue(s) {
      StepQueueInv(s);
      DrainQueueStep(s);
    }
  }

  lemma DrainOkStep(s: State, step: Step)
    requires Inv(s) && DrainOk(s) && Enabled(s, step)
    ensures DrainOk(Apply(s, step))
  {
    hide NodesOk, OpsOk, Exclusive, ClosedOk, KnownOk, ConsNodeOk, HasNode, StepOp, StepPushing, CanStart;
    match step
    case Thread(t) =>
      ThreadShut(s, t);
      ShutDrains(s, Apply(s, step));
    case ConsumerStep =>
      if s.cons.Closing? { CloserStep(s); } else if s.cons.Draining? { DrainStep(s); } else { OtherwiseOpen(s); }
    case _ =>
  }

  lemma OtherwiseOpen(s: State)
    requires ConsQueueOk(s) && DrainOk(s) && CanConsume(s) && !s.cons.Out? && !s.cons.Closing? && !s.cons.Draining?
    ensures DrainOk(StepCons(s))
  {
    hide HasNode, Q.StepCons, Q.StepPush, Consumed;
  }

  lemma {:induction false} DrainRun(run: seq<State>, steps: seq<Step>, k: nat)
    requires IsRun(run, steps) && k < |run|
    ensures DrainOk(run[k])
  {
    hide Inv, Apply, Enabled, DrainOk;
    if k == 0 {
      StartsOpen();
    } else {
      DrainRun(run, steps, k - 1);
      RunInv(run, steps, k - 1);
      DrainOkStep(run[k - 1], steps[k - 1]);
    }
  }

  lemma StartsOpen()
    ensures DrainOk(Init())
  {
  }

  /** The drain has left nodes behind exactly when it stopped before the closed marker. */
  lemma LeavesNodesExactlyBeforeClosed(run: seq<State>, steps: seq<Step>, k: nat)
    requires IsRun(run, steps) && k < |run| && run[k].closing && run[k].cons.Out?
    ensures HasNode(run[k].q.chain) <==> run[k].q.tail != Q.Closed
  {
    RunInv(run, steps, k);
    DrainRun(run, steps, k);
  }

  /** What the drain has left behind stays in the chain, counted by the queue, in every later
      state, so the node is never freed. */
  lemma {:induction false} LeftBehindForever(run: seq<State>, steps: seq<Step>, j: nat, k: nat, n: nat)
    requires IsRun(run, steps) && j <= k < |run| && run[j].closing && run[j].cons.Out? && Q.Node(n) in run[j].q.chain
    ensures run[k].closing && run[k].cons.Out? && Q.Node(n) in run[k].q.chain
    ensures n in run[k].nodes && run[k].nodes[n].qref.Held? && run[k].nodes[n].refs > 0
  {
    hide Inv, Apply, Enabled;
    RunInv(run, steps, k);
    if j < k {
      LeftBehindForever(run, steps, j, k - 1, n);
      RunInv(run, steps, k - 1);
      DrainRun(run, steps, k - 1);
      ClosedStays(run[k - 1], steps[k - 1]);
    }
    ChainedIsHeld(run[k], n);
  }

  lemma ClosedStays(s: State, step: Step)
    requires Enabled(s, step) && s.closing && s.cons.Out? && s.q.head == Q.Closed
    ensures var s' := Apply(s, step); s'.closing && s'.cons.Out? && s'.q.chain == s.q.chain
  {
    hide StepOp, StepPushing, CanStart;
    if step.Thread? { ThreadShut(s, step.t); }
  }

  lemma ChainedIsHeld(s: State, n: nat)
    requires Inv(s) && s.closing && Q.Node(n) in s.q.chain
    ensures n in s.nodes && s.nodes[n].qref.Held? && s.nodes[n].refs > 0
  {
    assert NodeOk(s, n);
    ClosedIsCounted(s, n);
  }
}
