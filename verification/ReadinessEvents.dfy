/** Where a node's readiness, interest and events come from: every change is a call's, every event is
    a readiness that was set, cut with the interest, and an undisturbed call or poll gets through. */
module ReadinessEvents {
  import Q = MpscQueue
  import QueueProgress
  import opened ReadinessNodes
  import opened ReadinessSteps
  import opened ReadinessRuns

  // ----- what `set_readiness` does -----

  /** The step is the compare and swap of a `set_readiness` on node `n` that goes through. */
  predicate Sets(s: State, step: Step, n: nat) {
    && step.Thread? && step.t in s.ops && s.ops[step.t].SetCas? && s.ops[step.t].n == n && n in s.nodes
    && !s.ops[step.t].seen.dropped && s.nodes[n].word == s.ops[step.t].seen
  }

  /** The readiness it is called with. */
  function SetTo(s: State, step: Step): Ready
    requires step.Thread? && step.t in s.ops && s.ops[step.t].SetCas?
  {
    s.ops[step.t].ready
  }

  /** It stores just that, and sets the queued bit if that is of interest. */
  lemma SetStores(s: State, step: Step, n: nat)
    requires Enabled(s, step) && Sets(s, step, n)
    ensures n in Apply(s, step).nodes
    ensures var w, r, w' := s.nodes[n].word, SetTo(s, step), Apply(s, step).nodes[n].word;
            && w'.ready == r && (r * w.interest != {} ==> w'.queued)
            && w' == w.(ready := r, queued := w.queued || r * w.interest != {})
    ensures step.t in Apply(s, step).ops ==> Apply(s, step).ops[step.t] == Enqueue(n, s.ops[step.t].h, false)
  {
  }

  /** A `set_readiness` goes on until it has gone through or has found the node dropped. */
  lemma SetGoesOn(s: State, t: nat)
    requires t in s.ops && CanStep(s, t) && (s.ops[t].SetLoad? || s.ops[t].SetCas?)
    ensures var s' := StepOp(s, t);
            || (t in s'.ops && s'.ops[t].SetCas? && s'.ops[t].ready == s.ops[t].ready && s'.ops[t].n == s.ops[t].n
                && s'.ops[t].seen == s.nodes[s.ops[t].n].word && s'.nodes == s.nodes)
            || Sets(s, Thread(t), s.ops[t].n)
            || (s.ops[t].SetCas? && s.ops[t].seen.dropped && s' == EndOp(s, t))
  {
  }

  /** What other steps make of a state word's readiness: nothing. */
  lemma ReadyKeptByThread(s: State, t: nat, n: nat)
    requires t in s.ops && CanStep(s, t) && n in s.nodes && !Sets(s, Thread(t), n)
    ensures n in StepOp(s, t).nodes && StepOp(s, t).nodes[n].word.ready == s.nodes[n].word.ready
  {
  }

  lemma ReadyKept(s: State, step: Step, n: nat)
    requires Enabled(s, step) && n in s.nodes && !Sets(s, step, n)
    ensures n in Apply(s, step).nodes && Apply(s, step).nodes[n].word.ready == s.nodes[n].word.ready
  {
    hide Sets, StepOp, StepPushing, StepCons, CanStart, NotEnding, CanClose;
    match step
    case Thread(t) => if s.ops[t].Pushing? { WordKeptByPush(s, t, n); } else { ReadyKeptByThread(s, t, n); }
    case ConsumerStep => NodeByConsumer(s, n);
    case _ =>
  }

  lemma WordKeptByPush(s: State, t: nat, n: nat)
    requires t in s.ops && s.ops[t].Pushing? && CanStep(s, t) && n in s.nodes
    ensures n in StepPushing(s, t).nodes
    ensures StepPushing(s, t).nodes[n] == s.nodes[n].(owner := StepPushing(s, t).nodes[n].owner)
  {
    hide Q.StepPush, Q.Finish;
  }

  lemma StartsUnready(s: State, step: Step, n: nat)
    requires Enabled(s, step) && n !in s.nodes && n in Apply(s, step).nodes
    ensures Apply(s, step).nodes[n].word.ready == {} && step.New? && step.n == n
  {
    hide Q.StepPush, Q.Finish, Q.StepCons, Consumed, CanStart, NotEnding, CanClose;
    if step == ConsumerStep { NodeByConsumer(s, n); }
    hide StepCons;
  }

  /** Over every run, a node's readiness is the value of the latest `set_readiness` that went
      through. */
  lemma {:induction false} ReadyIsLatestSet(run: seq<State>, steps: seq<Step>, j: nat, k: nat, n: nat)
    requires IsRun(run, steps) && j < k < |run| && Sets(run[j], steps[j], n)
    requires forall i :: j < i < k ==> !Sets(run[i], steps[i], n)
    ensures n in run[k].nodes && run[k].nodes[n].word.ready == SetTo(run[j], steps[j])
    decreases k
  {
    hide Apply, Enabled;
    if j == k - 1 {
      SetStores(run[j], steps[j], n);
    } else {
      ReadyIsLatestSet(run, steps, j, k - 1, n);
      ReadyKept(run[k - 1], steps[k - 1], n);
    }
  }

  /** Before the first one it is empty. */
  lemma {:induction false} ReadyStartsEmpty(run: seq<State>, steps: seq<Step>, k: nat, n: nat)
    requires IsRun(run, steps) && k < |run| && n in run[k].nodes
    requires forall i :: 0 <= i < k ==> !Sets(run[i], steps[i], n)
    ensures run[k].nodes[n].word.ready == {}
  {
    hide Apply, Enabled, Sets;
    if k > 0 {
      if n in run[k - 1].nodes {
        ReadyStartsEmpty(run, steps, k - 1, n);
        ReadyKept(run[k - 1], steps[k - 1], n);
      } else {
        StartsUnready(run[k - 1], steps[k - 1], n);
      }
    }
  }

  // ----- what `update` and one-shot do to the interest -----

  /** The step is the compare and swap of an `update` of node `n` that goes through. */
  predicate Installs(s: State, step: Step, n: nat) {
    && step.Thread? && step.t in s.ops && s.ops[step.t].UpdCas? && s.ops[step.t].n == n && n in s.nodes
    && s.nodes[n].word == s.ops[step.t].seen
  }

  /** It installs interest, options and token together, and sets the queued bit if what is ready is
      of interest now. */
  lemma UpdateStores(s: State, step: Step, n: nat)
    requires Inv(s) && Enabled(s, step) && Installs(s, step, n)
    ensures n in Apply(s, step).nodes
    ensures var a, w, d' := s.ops[step.t].args, s.nodes[n].word, Apply(s, step).nodes[n];
            && d'.word == w.(wr := d'.word.wr, interest := a.interest, edge := a.edge, oneshot := a.oneshot,
                             queued := w.queued || w.ready * a.interest != {})
            && d'.word.wr < |d'.slots| && d'.slots[d'.word.wr] == a.token == LastToken(d')
  {
    hide Q.Inv, NodesOk, Exclusive, ConsQueueOk, ConsNodeOk, ClosedOk, KnownOk;
    assert OpOk(s, step.t);
  }

  /** The step is the consumer's compare and swap of an armed one-shot node, which is edge-triggered
      then. */
  predicate Disarms(s: State, step: Step, n: nat) {
    && step == ConsumerStep && s.cons.Casing? && s.cons.n == n && n in s.nodes && s.nodes[n].word == s.cons.seen
    && !s.cons.seen.dropped && s.cons.seen.edge && s.cons.seen.oneshot && s.cons.seen.Effective() != {}
  }

  lemma InterestKeptByThread(s: State, t: nat, n: nat)
    requires t in s.ops && CanStep(s, t) && n in s.nodes && !Installs(s, Thread(t), n)
    ensures n in StepOp(s, t).nodes
    ensures var w, w' := s.nodes[n].word, StepOp(s, t).nodes[n].word;
            w'.interest == w.interest && w'.edge == w.edge && w'.oneshot == w.oneshot
  {
    hide NextTokenPos, Q.Begin, SetQueuedIfReady;
    if s.ops[t].SetCas? { QueuedOnly(s.ops[t].seen.(ready := s.ops[t].ready)); }
  }

  lemma QueuedOnly(w: Word)
    ensures SetQueuedIfReady(w) == w.(queued := w.queued || w.Effective() != {})
  {
  }

  lemma InterestByConsumer(s: State, n: nat)
    requires CanConsume(s) && n in s.nodes
    ensures n in StepCons(s).nodes
    ensures var w, w' := s.nodes[n].word, StepCons(s).nodes[n].word;
            && w'.edge == w.edge && w'.oneshot == w.oneshot
            && w'.interest == if Disarms(s, ConsumerStep, n) then {} else w.interest
  {
    NodeByConsumer(s, n);
    if !s.cons.Casing? || s.cons.n != n { OnlyCasingSwaps(s, n); }
  }

  lemma OnlyCasingSwaps(s: State, n: nat)
    requires CanConsume(s) && n in s.nodes && (!s.cons.Casing? || s.cons.n != n)
    ensures n in StepCons(s).nodes && StepCons(s).nodes[n].word == s.nodes[n].word
  {
    if s.cons.Dequeuing? || s.cons.Preparing? || s.cons.Draining? { NodeByQueue(s, n); }
    hide Consumed, StepQueue, Q.StepPush, Q.Finish;
  }

  /** Interest and options change only by an update, and one-shot takes the interest away. */
  lemma InterestKept(s: State, step: Step, n: nat)
    requires Enabled(s, step) && n in s.nodes && !Installs(s, step, n)
    ensures n in Apply(s, step).nodes
    ensures var w, w' := s.nodes[n].word, Apply(s, step).nodes[n].word;
            && w'.edge == w.edge && w'.oneshot == w.oneshot
            && w'.interest == if Disarms(s, step, n) then {} else w.interest
  {
    hide Installs, StepOp, StepPushing, StepCons, CanStart, NotEnding, CanClose;
    match step
    case Thread(t) => if s.ops[t].Pushing? { WordKeptByPush(s, t, n); } else { InterestKeptByThread(s, t, n); }
    case ConsumerStep => InterestByConsumer(s, n);
    case _ =>
  }

  /** Over every run, interest and options are those of the latest update, but for an interest that
      one-shot has taken away since. */
  lemma {:induction false} InterestIsLatestUpdate(run: seq<State>, steps: seq<Step>, j: nat, k: nat, n: nat)
    requires IsRun(run, steps) && j < k < |run| && Installs(run[j], steps[j], n)
    requires forall i :: j < i < k ==> !Installs(run[i], steps[i], n)
    ensures n in run[k].nodes
    ensures var a, w := run[j].ops[steps[j].t].args, run[k].nodes[n].word;
            && w.edge == a.edge && w.oneshot == a.oneshot
            && w.interest == if exists i :: j < i < k && Disarms(run[i], steps[i], n) then {} else a.interest
    decreases k
  {
    hide Apply, Enabled, Inv, Disarms;
    if j == k - 1 {
      RunInv(run, steps, j);
      UpdateStores(run[j], steps[j], n);
    } else {
      InterestIsLatestUpdate(run, steps, j, k - 1, n);
      InterestKept(run[k - 1], steps[k - 1], n);
      if Disarms(run[k - 1], steps[k - 1], n) {
        var i := k - 1;
        assert Disarms(run[i], steps[i], n);
      }
    }
  }

  // ----- what an event reports -----

  /** The node had this word at some moment up to `k`. */
  ghost predicate Had(run: seq<State>, k: nat, n: nat, w: Word)
    requires k < |run|
  {
    exists j :: 0 <= j <= k && n in run[j].nodes && run[j].nodes[n].word == w
  }

  /** The node was ready like this, as far as anyone was interested, at some moment up to `k`. */
  ghost predicate WasReady(run: seq<State>, k: nat, n: nat, ready: Ready)
    requires k < |run|
  {
    exists j :: 0 <= j <= k && n in run[j].nodes && run[j].nodes[n].word.Effective() == ready
  }

  /** What the consumer has in hand was seen in the node's word. */
  ghost predicate HandOk(run: seq<State>, k: nat)
    requires k < |run|
  {
    match run[k].cons
    case Casing(n, _, seen, _) => Had(run, k, n, seen)
    case Requeue(n, _, _, ready, _) => WasReady(run, k, n, ready)
    case Requeuing(n, _, _, ready, _) => WasReady(run, k, n, ready)
    case Reading(n, _, _, ready, _) => WasReady(run, k, n, ready)
    case _ => true
  }

  lemma HadGrows(run: seq<State>, k: nat, n: nat, w: Word)
    requires k + 1 < |run| && Had(run, k, n, w)
    ensures Had(run, k + 1, n, w) && WasReady(run, k + 1, n, w.Effective())
  {
    var j :| 0 <= j <= k && n in run[j].nodes && run[j].nodes[n].word == w;
    assert run[j].nodes[n].word.Effective() == w.Effective();
  }

  lemma WasReadyGrows(run: seq<State>, k: nat, n: nat, ready: Ready)
    requires k + 1 < |run| && WasReady(run, k, n, ready)
    ensures WasReady(run, k + 1, n, ready)
  {
    var j :| 0 <= j <= k && n in run[j].nodes && run[j].nodes[n].word.Effective() == ready;
  }

  /** What the consumer's program counter takes over. */
  lemma HandMoves(s: State)
    requires CanConsume(s)
    ensures var c, c' := s.cons, StepCons(s).cons;
            && (c'.Casing? ==> (c.Loading? || c.Casing?) && c'.n == c.n && c.n in s.nodes
                               && c'.seen == s.nodes[c.n].word)
            && (c'.Requeue? ==> c.Casing? && c'.n == c.n && c'.ready == c.seen.Effective())
            && (c'.Requeuing? ==> (c.Requeue? || c.Requeuing?) && c'.n == c.n && c'.ready == c.ready)
            && (c'.Reading? ==> (c.Casing? && c'.n == c.n && c'.ready == c.seen.Effective())
                                || (c.Requeuing? && c'.n == c.n && c'.ready == c.ready))
    ensures StepCons(s).events == s.events
            || (s.cons.Reading? && s.cons.ready != {} && s.cons.slot < |s.nodes[s.cons.n].slots|
                && StepCons(s).events ==
                   s.events + [Event(s.cons.n, s.cons.ready, s.nodes[s.cons.n].slots[s.cons.slot])])
  {
    hide StepQueue, Consumed, Q.StepPush, Q.Finish;
    if s.cons.Dequeuing? || s.cons.Preparing? || s.cons.Draining? { ConsByQueue(s); }
  }

  lemma ConsByQueue(s: State)
    ensures StepQueue(s).cons == s.cons && StepQueue(s).events == s.events
  {
    hide Q.StepCons, Q.StepPush;
  }

  lemma OthersKeepHand(s: State, step: Step)
    requires Enabled(s, step) && step != ConsumerStep
    ensures Apply(s, step).events == s.events
    ensures Apply(s, step).cons == s.cons
            || Apply(s, step).cons.Out? || Apply(s, step).cons.Polling? || Apply(s, step).cons.Preparing?
            || Apply(s, step).cons.Closing?
  {
    hide Q.StepPush, Q.Finish, CanStart, NotEnding, CanClose, NextTokenPos, SetQueuedIfReady;
  }

  lemma {:induction false} HandsAreOk(run: seq<State>, steps: seq<Step>, k: nat)
    requires IsRun(run, steps) && k < |run|
    ensures HandOk(run, k)
  {
    hide Apply, Enabled, Had, WasReady;
    if k > 0 {
      HandsAreOk(run, steps, k - 1);
      if steps[k - 1] == ConsumerStep {
        HandTaken(run, steps, k - 1);
      } else {
        OthersKeepHand(run[k - 1], steps[k - 1]);
        HandKept(run, k - 1);
      }
    }
  }

  lemma HandKept(run: seq<State>, k: nat)
    requires k + 1 < |run| && HandOk(run, k)
    requires run[k + 1].cons == run[k].cons || run[k + 1].cons.Out? || run[k + 1].cons.Polling?
             || run[k + 1].cons.Preparing? || run[k + 1].cons.Closing?
    ensures HandOk(run, k + 1)
  {
    hide Had, WasReady;
    match run[k].cons
    case Casing(n, _, seen, _) => HadGrows(run, k, n, seen);
    case Requeue(n, _, _, ready, _) => WasReadyGrows(run, k, n, ready);
    case Requeuing(n, _, _, ready, _) => WasReadyGrows(run, k, n, ready);
    case Reading(n, _, _, ready, _) => WasReadyGrows(run, k, n, ready);
    case _ =>
  }

  lemma HandTaken(run: seq<State>, steps: seq<Step>, k: nat)
    requires IsRun(run, steps) && k + 1 < |run| && steps[k] == ConsumerStep && HandOk(run, k)
    ensures HandOk(run, k + 1)
  {
    hide Had, WasReady;
    HandMoves(run[k]);
    hide StepCons;
    var c, c' := run[k].cons, run[k + 1].cons;
    if c'.Casing? {
      HadNow(run, k, c.n);
      HadGrows(run, k, c.n, c'.seen);
    } else if c'.Requeue? || c'.Requeuing? || c'.Reading? {
      if c.Casing? { HadGrows(run, k, c.n, c.seen); } else { WasReadyGrows(run, k, c.n, c.ready); }
    }
  }

  lemma HadNow(run: seq<State>, k: nat, n: nat)
    requires k < |run| && n in run[k].nodes
    ensures Had(run, k, n, run[k].nodes[n].word)
  {
  }

  /** Over every run, what an event reports is not empty, and was the node's readiness cut with its
      interest at some moment before. */
  lemma {:induction false} EventsWereReady(run: seq<State>, steps: seq<Step>, k: nat, e: nat)
    requires IsRun(run, steps) && k < |run| && e < |run[k].events|
    ensures run[k].events[e].ready != {} && WasReady(run, k, run[k].events[e].n, run[k].events[e].ready)
    decreases k, 0
  {
    hide Apply, Enabled, WasReady, HandOk;
    if k > 0 {
      if steps[k - 1] == ConsumerStep {
        EventTaken(run, steps, k - 1, e);
      } else {
        OthersKeepHand(run[k - 1], steps[k - 1]);
        EventsWereReady(run, steps, k - 1, e);
        WasReadyGrows(run, k - 1, run[k].events[e].n, run[k].events[e].ready);
      }
    }
  }

  lemma {:induction false} EventTaken(run: seq<State>, steps: seq<Step>, k: nat, e: nat)
    requires IsRun(run, steps) && k + 1 < |run| && steps[k] == ConsumerStep && e < |run[k + 1].events|
    ensures run[k + 1].events[e].ready != {} && WasReady(run, k + 1, run[k + 1].events[e].n, run[k + 1].events[e].ready)
    decreases k, 1
  {
    hide WasReady;
    HandMoves(run[k]);
    hide StepCons;
    if e < |run[k].events| {
      EventsWereReady(run, steps, k, e);
    } else {
      HandsAreOk(run, steps, k);
    }
    WasReadyGrows(run, k, run[k + 1].events[e].n, run[k + 1].events[e].ready);
  }
}
