/** A poll that nobody disturbs: it takes every node that waits in the queue once, in order, reports
    what is ready and of interest, and leaves the level-triggered ones in the queue. */
module ReadinessDelivery {
  import Q = MpscQueue
  import P = QueueProgress
  import opened ReadinessNodes
  import opened ReadinessSteps
  import opened ReadinessRuns
  import opened ReadinessEvents

  /** The consumer alone goes from `s` to `s'` in `k` steps. */
  predicate Consumes(s: State, s': State, k: nat)
    decreases k
  {
    if k == 0 then s' == s else Enabled(s, ConsumerStep) && Consumes(StepCons(s), s', k - 1)
  }

  lemma {:induction false} ConsumesOn(s: State, s1: State, s2: State, j: nat, k: nat)
    requires Consumes(s, s1, j) && Consumes(s1, s2, k)
    ensures Consumes(s, s2, j + k)
    decreases j
  {
    hide StepCons;
    if j > 0 { ConsumesOn(StepCons(s), s1, s2, j - 1, k); }
  }

  lemma ConsumesOne(s: State)
    requires Inv(s) && !s.cons.Out?
    ensures Enabled(s, ConsumerStep) && Inv(StepCons(s)) && Consumes(s, StepCons(s), 1)
  {
    hide Inv, StepCons, CanConsume;
    StepsAreDefined(s);
    ConsumerInv(s);
    assert Consumes(StepCons(s), StepCons(s), 0);
  }

  // ----- what a poll does to a node, and what it leaves alone -----

  /** What the poll reports of a node that it takes from the queue. */
  function Report(n: nat, d: Node): seq<Event> {
    if d.word.dropped || d.word.Effective() == {} then [] else [Event(n, d.word.Effective(), LastToken(d))]
  }

  /** A level-triggered node that is ready goes back into the queue. */
  predicate StaysQueued(d: Node) { !d.word.dropped && !d.word.edge && d.word.Effective() != {} }

  /** The node but for its owner. */
  function Bare(d: Node): Node { d.(owner := Nobody) }

  /** The node once it was taken: the queue's reference is given back when it is dropped; otherwise
      the read position is moved up, and an edge-triggered node is taken off the queue, with its
      interest when it is one-shot. */
  function Taken(d: Node): Node {
    if d.word.dropped then d.(refs := d.refs - 1, qref := Released, owner := Nobody)
    else Bare(d).(word := d.word.(
        rd := d.word.wr, queued := StaysQueued(d),
        interest := if d.word.edge && d.word.oneshot && d.word.Effective() != {} then {} else d.word.interest))
  }

  lemma TakenIsConsumed(d: Node)
    requires d.word.queued && !d.word.dropped
    ensures Taken(d) == Bare(d).(word := Consumed(d.word)) && (StaysQueued(d) <==> Consumed(d.word).queued)
  {
  }

  /** The pushes of the threads other than `t` are where they were. */
  ghost predicate OthersKept(q: Q.State, q': Q.State, t: Q.Thread) {
    forall u: Q.Thread :: u != t ==>
      (u in q'.pushes <==> u in q.pushes) && (u in q.pushes ==> q'.pushes[u] == q.pushes[u])
  }

  /** Nothing but the consumer's own affairs is different. */
  ghost predicate Beside(s: State, s': State) {
    && s'.closing == s.closing && s'.ops == s.ops && OthersKept(s.q, s'.q, Q.Consumer) && s'.nodes.Keys == s.nodes.Keys
  }

  predicate SameCells(s: State, s': State) {
    forall n :: n in s.nodes && n in s'.nodes ==> Bare(s'.nodes[n]) == Bare(s.nodes[n])
  }

  /** Node `n` was taken, and no other node was. */
  predicate Takes(s: State, s': State, n: nat) {
    forall m :: m in s.nodes && m in s'.nodes ==>
      Bare(s'.nodes[m]) == if m == n then Taken(s.nodes[m]) else Bare(s.nodes[m])
  }

  lemma BesideOn(s: State, s1: State, s2: State)
    requires Beside(s, s1) && Beside(s1, s2)
    ensures Beside(s, s2)
    ensures SameCells(s, s1) && SameCells(s1, s2) ==> SameCells(s, s2)
  {
  }

  lemma TakesOn(s: State, s1: State, s2: State, s3: State, n: nat)
    requires Beside(s, s1) && Beside(s1, s2) && Beside(s2, s3)
    requires SameCells(s, s1) && Takes(s1, s2, n) && SameCells(s2, s3)
    ensures Beside(s, s3) && Takes(s, s3, n)
  {
    forall m | m in s.nodes
      ensures m in s3.nodes && Bare(s3.nodes[m]) == if m == n then Taken(s.nodes[m]) else Bare(s.nodes[m])
    {
      assert Bare(s1.nodes[m]) == Bare(s.nodes[m]);
      SameTaken(s.nodes[m], s1.nodes[m]);
    }
  }

  lemma SameTaken(d: Node, d': Node)
    requires Bare(d') == Bare(d)
    ensures Taken(d') == Taken(d) && Report(0, d') == Report(0, d) && StaysQueued(d') == StaysQueued(d)
    ensures forall n :: Report(n, d') == Report(n, d)
  {
    assert d' == d.(owner := d'.owner);
  }

  // ----- the consumer with a node in hand -----

  /** How far a push has got. */
  function PushesLeft(p: Q.Push): nat {
    match p case Clear(_) => 4 case Load(_) => 3 case Try(_, _) => 2 case Link(_, _, _) => 1 case _ => 0
  }

  /** Thread `t` pushes, and nobody has changed the head since it was loaded. */
  predicate Unopposed(q: Q.State, t: Q.Thread) {
    t in q.pushes && (q.pushes[t].Try? ==> q.pushes[t].prev == q.head) && !q.pushes[t].Rejected?
  }

  /** What the push still has to add to the log. */
  function ToLog(q: Q.State, t: Q.Thread): seq<nat> {
    if t in q.pushes && Q.Owes(q.pushes[t]) then Q.IdOf(q.pushes[t].node) else []
  }

  lemma OwnPushGoesOn(q: Q.State, t: Q.Thread)
    requires Unopposed(q, t) && !q.pushes[t].Pushed? && q.head != Q.Closed
    ensures var q' := Q.StepPush(q, t);
            && Unopposed(q', t) && PushesLeft(q'.pushes[t]) < PushesLeft(q.pushes[t])
            && q'.log + ToLog(q', t) == q.log + ToLog(q, t) && q'.out == q.out && OthersKept(q, q', t)
  {
  }

  lemma OwnPushEnds(q: Q.State, t: Q.Thread)
    requires t in q.pushes && q.pushes[t].Pushed?
    ensures var q' := Q.Finish(q, t);
            && q'.log == q.log && ToLog(q, t) == [] == ToLog(q', t) && q'.out == q.out && OthersKept(q, q', t)
            && t !in q'.pushes
  {
  }

  lemma OpenHead(s: State)
    requires Inv(s) && !s.closing
    ensures s.q.head != Q.Closed
  {
    assert s.q.head in s.q.chain;
  }

  lemma RequeuingStep(s: State)
    requires s.cons.Requeuing? && Q.Consumer in s.q.pushes && CanConsume(s)
    ensures var s', c := StepCons(s), s.cons;
            && s'.closing == s.closing && s'.ops == s.ops && s'.nodes.Keys == s.nodes.Keys && SameCells(s, s')
            && s'.events == s.events
            && if s.q.pushes[Q.Consumer].Pushed?
               then s'.cons == Reading(c.n, c.until, c.slot, c.ready, c.token) && s'.q == Q.Finish(s.q, Q.Consumer)
               else s'.cons == c && s'.q == Q.StepPush(s.q, Q.Consumer)
  {
    hide Q.StepPush, Q.Finish;
  }

  /** One step of requeuing. */
  ghost predicate Requeues(s: State, s': State) {
    && Beside(s, s') && SameCells(s, s') && s'.events == s.events && s'.q.out == s.q.out
    && s'.q.log + ToLog(s'.q, Q.Consumer) == s.q.log + ToLog(s.q, Q.Consumer)
  }

  lemma RequeuingGoesOn(s: State)
    requires Inv(s) && s.cons.Requeuing? && !s.closing && Unopposed(s.q, Q.Consumer)
    ensures var s', c := StepCons(s), s.cons;
            && Inv(s') && Enabled(s, ConsumerStep) && Requeues(s, s')
            && if s.q.pushes[Q.Consumer].Pushed?
               then s'.cons == Reading(c.n, c.until, c.slot, c.ready, c.token) && ToLog(s'.q, Q.Consumer) == []
               else s'.cons == c && Unopposed(s'.q, Q.Consumer)
                    && PushesLeft(s'.q.pushes[Q.Consumer]) < PushesLeft(s.q.pushes[Q.Consumer])
  {
    hide Inv, StepCons, Q.StepPush, Q.Finish, PushesLeft, SameCells, ToLog, OthersKept;
    OpenHead(s);
    ConsumesOne(s);
    RequeuingStep(s);
    if s.q.pushes[Q.Consumer].Pushed? { OwnPushEnds(s.q, Q.Consumer); } else { OwnPushGoesOn(s.q, Q.Consumer); }
  }

  lemma RequeuesOn(s: State, s1: State, s2: State)
    requires Requeues(s, s1) && Requeues(s1, s2)
    ensures Requeues(s, s2)
  {
    BesideOn(s, s1, s2);
  }

  /** A node being requeued is back in the queue after at most five steps, and is read then. */
  lemma {:induction false} RequeuingComesToRead(s: State) returns (s': State, k: nat)
    requires Inv(s) && s.cons.Requeuing? && !s.closing && Unopposed(s.q, Q.Consumer)
    ensures k <= PushesLeft(s.q.pushes[Q.Consumer]) + 1 && Consumes(s, s', k) && Inv(s')
    ensures s'.cons == Reading(s.cons.n, s.cons.until, s.cons.slot, s.cons.ready, s.cons.token)
    ensures Requeues(s, s') && ToLog(s'.q, Q.Consumer) == []
    decreases PushesLeft(s.q.pushes[Q.Consumer])
  {
    hide Inv, StepCons, ToLog, SameCells, OthersKept;
    RequeuingGoesOn(s);
    if s.q.pushes[Q.Consumer].Pushed? {
      s', k := StepCons(s), 1;
      assert Consumes(s', s', 0);
    } else {
      var j;
      s', j := RequeuingComesToRead(StepCons(s));
      k := j + 1;
      RequeuesOn(s, StepCons(s), s');
    }
  }

  lemma RequeueStep(s: State)
    requires s.cons.Requeue?
    ensures var s', c := StepCons(s), s.cons;
            && s' == s.(q := s'.q, cons := s'.cons) && Unopposed(s'.q, Q.Consumer)
               && PushesLeft(s'.q.pushes[Q.Consumer]) == 4
            && s'.cons == Requeuing(c.n, if c.until == Q.Null then Q.Node(c.n) else c.until, c.slot, c.ready, c.token)
            && s'.q.log == s.q.log && s'.q.out == s.q.out && ToLog(s'.q, Q.Consumer) == [c.n]
               && OthersKept(s.q, s'.q, Q.Consumer)
  {
  }

  /** The node goes back into the queue, the first one to do so being where the poll stops. */
  lemma RequeueComesToRead(s: State) returns (s': State, k: nat)
    requires Inv(s) && s.cons.Requeue? && !s.closing
    ensures k <= 6 && Consumes(s, s', k) && Inv(s') && Beside(s, s') && SameCells(s, s') && s'.events == s.events
    ensures var c := s.cons;
            s'.cons == Reading(c.n, if c.until == Q.Null then Q.Node(c.n) else c.until, c.slot, c.ready, c.token)
    ensures s'.q.out == s.q.out && s'.q.log == s.q.log + [s.cons.n]
  {
    hide Inv, StepCons, Unopposed, ToLog, OthersKept, PushesLeft;
    ConsumesOne(s);
    RequeueStep(s);
    var s1 := StepCons(s);
    var j;
    s', j := RequeuingComesToRead(s1);
    ConsumesOn(s, s1, s', 1, j);
    k := 1 + j;
    BesideOn(s, s1, s');
  }

  lemma InHandToken(s: State)
    requires Inv(s) && s.cons.Reading?
    ensures ReadOk(s.nodes[s.cons.n], s.cons.slot, s.cons.token)
  {
  }

  /** From reading on, the event is there. */
  lemma ReadingDelivers(s: State)
    requires Inv(s) && s.cons.Reading?
    ensures var s', c := StepCons(s), s.cons;
            && Consumes(s, s', 1) && Inv(s') && s' == s.(events := s'.events, cons := Polling(c.until))
            && s'.events == s.events + if c.ready == {} then [] else [Event(c.n, c.ready, c.token)]
  {
    hide Inv, Consumes;
    ConsumesOne(s);
    InHandToken(s);
  }

  lemma LoadingLooks(s: State)
    requires Inv(s) && s.cons.Loading?
    ensures var s', n := StepCons(s), s.cons.n;
            && Inv(s') && Consumes(s, s', 1) && n in s.nodes && s.nodes[n].word.queued
            && s' == s.(cons := Casing(n, s.cons.until, s.nodes[n].word, LastToken(s.nodes[n])))
  {
    ConsumesOne(s);
    assert Holds(s, s.cons.n) && NodeOk(s, s.cons.n);
  }

  /** The consumer has just loaded the word and the token of its node. */
  predicate Looked(s: State) {
    && s.cons.Casing? && s.cons.n in s.nodes && s.nodes[s.cons.n].word.queued
    && s.cons.seen == s.nodes[s.cons.n].word && s.cons.token == LastToken(s.nodes[s.cons.n])
  }

  lemma CasingStep(s: State)
    requires Looked(s) && !s.cons.seen.dropped
    ensures var s', n, d := StepCons(s), s.cons.n, s.nodes[s.cons.n];
            && s' == s.(nodes := s'.nodes, cons := s'.cons) && s'.nodes.Keys == s.nodes.Keys && Takes(s, s', n)
            && s'.cons == if StaysQueued(d)
                          then Requeue(n, s.cons.until, d.word.wr, d.word.Effective(), LastToken(d))
                          else Reading(n, s.cons.until, d.word.wr, d.word.Effective(), LastToken(d))
  {
    TakenIsConsumed(s.nodes[s.cons.n]);
    ConsumedReads(s.cons.seen);
    hide Consumed, StaysQueued, Taken;
  }

  lemma ConsumedReads(w: Word)
    ensures Consumed(w).rd == w.wr
  {
  }

  lemma DroppingStep(s: State)
    requires Looked(s) && s.cons.seen.dropped
    ensures var s', n := StepCons(s), s.cons.n;
            && s' == s.(cons := Dropping(n, s.cons.until))
            && s'.cons.Dropping? && StepCons(s').cons == Polling(s.cons.until)
            && StepCons(s') == s'.(nodes := StepCons(s').nodes, cons := StepCons(s').cons)
            && StepCons(s').nodes.Keys == s'.nodes.Keys && Takes(s', StepCons(s'), n)
  {
  }

  /** The node in hand is taken, and an event delivered or not. */
  lemma LoadingDelivers(s: State) returns (s': State, k: nat)
    requires Inv(s) && s.cons.Loading? && !s.closing
    ensures k <= 9 && Consumes(s, s', k) && Inv(s') && Beside(s, s') && s.cons.n in s.nodes && Takes(s, s', s.cons.n)
    ensures var n, until := s.cons.n, s.cons.until;
            var d := s.nodes[n];
            && s'.events == s.events + Report(n, d) && s'.q.out == s.q.out
            && s'.q.log == s.q.log + (if StaysQueued(d) then [n] else [])
            && s'.cons == Polling(if StaysQueued(d) && until == Q.Null then Q.Node(n) else until)
  {
    hide Inv, StepCons, Takes, SameCells, OthersKept, StaysQueued;
    LoadingLooks(s);
    var n, s1 := s.cons.n, StepCons(s);
    LooksBeside(s, s1);
    ConsumesOne(s1);
    var s2 := StepCons(s1);
    if s.nodes[n].word.dropped {
      DroppingStep(s1);
      ConsumesOne(s2);
      s' := StepCons(s2);
      ConsumesOn(s, s1, s2, 1, 1);
      ConsumesOn(s, s2, s', 2, 1);
      k := 3;
      LooksBeside(s, s2);
      LooksBeside(s2, s');
      LooksBeside(s', s');
      TakesOn(s, s2, s', s', n);
      DroppedStays(s.nodes[n]);
    } else {
      CasingStep(s1);
      LooksBeside(s1, s2);
      var s3, j := RequeuesIfNeeded(s2);
      ReadingDelivers(s3);
      s' := StepCons(s3);
      ConsumesOn(s, s1, s2, 1, 1);
      ConsumesOn(s, s2, s3, 2, j);
      ConsumesOn(s, s3, s', 2 + j, 1);
      k := 3 + j;
      LooksBeside(s3, s');
      BesideOn(s2, s3, s');
      TakesOn(s, s1, s2, s', n);
      StaysIsReady(s.nodes[n]);
    }
  }

  lemma StaysIsReady(d: Node)
    ensures StaysQueued(d) ==> d.word.Effective() != {}
  {
  }

  lemma DroppedStays(d: Node)
    ensures d.word.dropped ==> !StaysQueued(d)
  {
  }

  lemma RequeuesIfNeeded(s: State) returns (s': State, k: nat)
    requires Inv(s) && !s.closing && (s.cons.Requeue? || s.cons.Reading?)
    ensures k <= 6 && Consumes(s, s', k) && Inv(s') && Beside(s, s') && SameCells(s, s') && s'.events == s.events
    ensures var c, again := s.cons, s.cons.Requeue?;
            && s'.cons == Reading(c.n, if again
                                  && c.until == Q.Null then Q.Node(c.n) else c.until, c.slot, c.ready, c.token)
            && s'.q.out == s.q.out && s'.q.log == s.q.log + if again then [c.n] else []
  {
    hide Inv, StepCons;
    if s.cons.Requeue? {
      s', k := RequeueComesToRead(s);
    } else {
      s', k := s, 0;
    }
  }

  lemma LooksBeside(s: State, s': State)
    requires s'.closing == s.closing && s'.ops == s.ops && s'.q == s.q && s'.nodes.Keys == s.nodes.Keys
    ensures Beside(s, s') && (s'.nodes == s.nodes ==> SameCells(s, s'))
  {
  }

  // ----- the consumer inside the queue -----

  /** What the answer of the queue adds to what was handed out. */
  function Handed(c: Q.Cons): seq<nat> {
    if c.GotDequeued? && c.result.Data? then Q.IdOf(c.result.node) else []
  }

  lemma QueuePushKeeps(q: Q.State)
    requires Q.Consumer in q.pushes && q.pushes[Q.Consumer].node.End?
    ensures var q' := Q.StepPush(q, Q.Consumer);
            q'.log == q.log && q'.out == q.out && q'.cons == q.cons && OthersKept(q, q', Q.Consumer)
  {
  }

  lemma TakeKeeps(q: Q.State, next: Q.Ptr)
    ensures var q' := Q.Take(q, next);
            q'.log == q.log && q'.out == q.out + Handed(q'.cons) && q'.pushes == q.pushes
  {
  }

  lemma AfterNextKeeps(q: Q.State, until: Q.Ptr, next: Q.Ptr)
    requires !q.cons.GotDequeued?
    ensures var q' := Q.AfterNext(q, until, next);
            q'.log == q.log && q'.out == q.out + Handed(q'.cons) && q'.pushes == q.pushes
  {
    if q.tail != until && next != Q.Null { TakeKeeps(q, next); }
    hide Q.Take;
    assert q.out + [] == q.out;
  }

  lemma LookKeeps(q: Q.State)
    requires q.cons.Deq? || q.cons.DeqSkipped? || q.cons.DeqAgain?
    ensures var q' := Q.StepCons(q);
            q'.log == q.log && q'.out == q.out + Handed(q'.cons) && q'.pushes == q.pushes
  {
    hide Q.AfterNext, Q.NextOf, Q.Take;
    var next := Q.NextOf(q, q.tail);
    assert q.out + [] == q.out;
    if q.cons.DeqAgain? { TakeKeeps(q, next); } else { AfterNextKeeps(q, q.cons.until, next); }
  }

  lemma ClearKeeps(q: Q.State)
    requires q.cons.ClearStore? || q.cons.ClearCas?
    ensures var q' := Q.StepCons(q);
            q'.log == q.log && q'.out == q.out && Handed(q'.cons) == [] && q'.pushes == q.pushes
  {
  }

  lemma EndPushKeeps(q: Q.State)
    requires q.cons.DeqHead? || q.cons.DeqPushEnd?
    ensures var q' := Q.StepCons(q);
            && q'.log == q.log && q'.out == q.out && Handed(q'.cons) == [] && OthersKept(q, q', Q.Consumer)
  {
  }

  lemma QueueConsKeeps(q: Q.State)
    requires DequeueCons(q.cons) && !q.cons.GotDequeued?
    ensures var q' := Q.StepCons(q);
            q'.log == q.log && q'.out == q.out + Handed(q'.cons) && OthersKept(q, q', Q.Consumer)
  {
    hide Q.StepCons, Handed;
    assert q.out + [] == q.out;
    match q.cons
    case ClearStore(_) => ClearKeeps(q);
    case ClearCas(_) => ClearKeeps(q);
    case DeqHead => EndPushKeeps(q);
    case DeqPushEnd => EndPushKeeps(q);
    case _ => LookKeeps(q);
  }

  lemma QueueAloneKeeps(q: Q.State)
    requires DequeueCons(q.cons) && !q.cons.GotDequeued?
    requires Q.Consumer in q.pushes ==> q.pushes[Q.Consumer].node.End? && q.cons.DeqPushEnd?
    ensures var q' := P.Alone(q); q'.log == q.log && q'.out == q.out + Handed(q'.cons) && OthersKept(q, q', Q.Consumer)
  {
    hide Q.StepPush, Q.StepCons, OthersKept;
    if Q.Consumer in q.pushes && !q.pushes[Q.Consumer].Pushed? { QueuePushKeeps(q); } else { QueueConsKeeps(q); }
  }

  lemma InsideDequeue(s: State)
    requires Inv(s) && s.cons.Dequeuing?
    ensures DequeueCons(s.q.cons)
    ensures Q.Consumer in s.q.pushes ==> s.q.cons.DeqPushEnd? && s.q.pushes[Q.Consumer].node.End?
    ensures s.q.cons.GotDequeued? ==> Q.Consumer !in s.q.pushes
  {
  }

  lemma DequeuingStep(s: State)
    requires s.cons.Dequeuing? && !s.q.cons.GotDequeued? && (Q.Consumer in s.q.pushes ==> s.q.cons.DeqPushEnd?)
    ensures var s' := StepCons(s);
            && s'.q == P.Alone(s.q) && s'.cons == s.cons && s'.events == s.events
            && s'.closing == s.closing && s'.ops == s.ops && s'.nodes.Keys == s.nodes.Keys && SameCells(s, s')
  {
    hide Q.StepCons, Q.StepPush, Bare;
    forall n | n in s.nodes ensures n in StepCons(s).nodes && Bare(StepCons(s).nodes[n]) == Bare(s.nodes[n]) {
      NodeByQueue(s, n);
      BareIs(s.nodes[n], StepCons(s).nodes[n].owner);
    }
    NodeByQueue(s, 0);
  }

  lemma BareIs(d: Node, o: Owner)
    ensures Bare(d.(owner := o)) == Bare(d)
  {
  }

  lemma DequeuingGoesOn(s: State)
    requires Inv(s) && s.cons.Dequeuing? && !s.q.cons.GotDequeued?
    ensures var s' := StepCons(s);
            && Inv(s') && Enabled(s, ConsumerStep) && s'.q == P.Alone(s.q) && s'.cons == s.cons
            && s'.events == s.events && Beside(s, s') && SameCells(s, s')
            && s'.q.log == s.q.log && s'.q.out == s.q.out + Handed(s'.q.cons)
  {
    hide Inv, StepCons, P.Alone, SameCells, DequeueCons;
    ConsumesOne(s);
    InsideDequeue(s);
    DequeuingStep(s);
    QueueAloneKeeps(s.q);
  }

  lemma AloneStops(q: Q.State, k: nat)
    requires q.cons.GotDequeued? && Q.Consumer !in q.pushes
    ensures P.AloneFor(q, k) == q
    decreases k
  {
    if k > 0 { AloneStops(q, k - 1); }
  }

  /** What the queue alone comes to, the consumer of the nodes comes to. */
  lemma {:induction false} DequeuingComesTo(s: State, k: nat) returns (s': State, j: nat)
    requires Inv(s) && s.cons.Dequeuing? && P.AloneFor(s.q, k).cons.GotDequeued?
    ensures j <= k && Consumes(s, s', j) && Inv(s') && s'.cons == s.cons && s'.events == s.events
    ensures Beside(s, s') && SameCells(s, s') && s'.q.cons == P.AloneFor(s.q, k).cons
    ensures s'.q.log == s.q.log
    ensures if s.q.cons.GotDequeued? then s'.q == s.q else s'.q.out == s.q.out + Handed(s'.q.cons)
    decreases k
  {
    hide Inv, StepCons, P.Alone, OthersKept;
    if s.q.cons.GotDequeued? {
      InsideDequeue(s);
      AloneStops(s.q, k);
      s', j := s, 0;
      assert Consumes(s, s, 0);
      LooksBeside(s, s);
    } else {
      DequeuingGoesOn(s);
      var i;
      s', i := DequeuingComesTo(StepCons(s), k - 1);
      j := i + 1;
      BesideOn(s, StepCons(s), s');
    }
  }

  lemma PollBegins(s: State)
    requires Inv(s) && s.cons.Polling?
    ensures var s' := StepCons(s);
            && Inv(s') && Consumes(s, s', 1)
            && s' == s.(q := s.q.(cons := Q.Deq(s.cons.until)), cons := Dequeuing(s.cons.until))
  {
    ConsumesOne(s);
    hide Inv;
  }

  lemma PollReturns(s: State)
    requires Inv(s) && s.cons.Dequeuing? && s.q.cons.GotDequeued?
    ensures var s', r := StepCons(s), s.q.cons.result;
            && Inv(s') && Consumes(s, s', 1)
            && s' == s.(q := s.q.(cons := Q.Idle),
                        cons := if r.Data? && r.node.Node? then Loading(r.node.id, s.cons.until) else Out)
  {
    ConsumesOne(s);
    hide Inv;
  }

  /** What the poll comes to, once it is known what the queue alone answers. */
  lemma PollComesTo(s: State, k: nat) returns (s': State, j: nat)
    requires Inv(s) && s.cons.Polling? && P.AloneFor(s.q.(cons := Q.Deq(s.cons.until)), k).cons.GotDequeued?
    ensures j <= k + 2 && Consumes(s, s', j) && Inv(s') && s'.events == s.events && Beside(s, s') && SameCells(s, s')
    ensures var c := P.AloneFor(s.q.(cons := Q.Deq(s.cons.until)), k).cons;
            && s'.q.log == s.q.log && s'.q.out == s.q.out + Handed(c)
            && s'.cons == if c.result.Data? && c.result.node.Node? then Loading(c.result.node.id, s.cons.until) else Out
  {
    hide Inv, StepCons, SameCells, OthersKept, P.AloneFor, Handed;
    PollBegins(s);
    var s1 := StepCons(s);
    var s2, b := DequeuingComesTo(s1, k);
    PollReturns(s2);
    s' := StepCons(s2);
    ConsumesOn(s, s1, s2, 1, b);
    ConsumesOn(s, s2, s', 1 + b, 1);
    j := 2 + b;
    IdleBeside(s, s1);
    IdleBeside(s2, s');
    BesideOn(s, s1, s2);
    BesideOn(s, s2, s');
  }

  lemma IdleBeside(s: State, s': State)
    requires s' == s.(q := s.q.(cons := s'.q.cons), cons := s'.cons)
    ensures Beside(s, s') && SameCells(s, s')
  {
  }

  /** No push is half done, and the consumer is between two nodes of a poll. */
  ghost predicate Calm(s: State) { Inv(s) && s.cons.Polling? && !s.closing && P.NothingHalfPushed(s.q) }

  /** The registered nodes that wait in the queue, the oldest first. */
  function Waiting(s: State): seq<nat> { Q.Ids(s.q.chain) }

  lemma WaitingIs(s: State)
    requires Inv(s)
    ensures s.q.log == s.q.out + Waiting(s) && s.q.log[|s.q.out|..] == Waiting(s)
    ensures s.cons.Polling? && !s.closing ==> Q.Consumer !in s.q.pushes
  {
  }

  lemma QueueFinds(s: State) returns (k: nat)
    requires Calm(s) && Waiting(s) != [] && s.cons.until != Q.Node(Waiting(s)[0])
    ensures k <= 9
    ensures P.AloneFor(s.q.(cons := Q.Deq(s.cons.until)), k).cons == Q.GotDequeued(Q.Data(Q.Node(Waiting(s)[0])))
  {
    WaitingIs(s);
    PollBegins(s);
    var q := s.q.(cons := Q.Deq(s.cons.until));
    assert Q.Inv(q) && P.HasNodeFor(q, s.cons.until) && P.NothingHalfPushed(q);
    hide Inv, Q.Inv, P.HasNodeFor, P.NothingHalfPushed;
    k := P.DequeueAloneTakesOldest(q, s.cons.until);
  }

  lemma StaysCalm(s: State, s': State)
    requires Calm(s) && Inv(s') && s'.cons.Polling? && Beside(s, s')
    ensures Calm(s')
  {
    WaitingIs(s');
    hide Inv;
  }

  /** One round of the poll: the oldest node is taken, and within twenty steps its event is there. */
  lemma PollTakesOldest(s: State) returns (s': State, k: nat)
    requires Calm(s) && Waiting(s) != [] && s.cons.until != Q.Node(Waiting(s)[0])
    ensures k <= 20 && Consumes(s, s', k) && Calm(s') && Beside(s, s')
    ensures var n := Waiting(s)[0];
            n in s.nodes && Takes(s, s', n)
            && var again := StaysQueued(s.nodes[n]);
            && s'.events == s.events + Report(n, s.nodes[n])
            && Waiting(s') == Waiting(s)[1..] + (if again then [n] else [])
            && s'.cons == Polling(if again && s.cons.until == Q.Null then Q.Node(n) else s.cons.until)
  {
    hide Inv, StepCons, SameCells, OthersKept, Waiting, P.AloneFor, P.NothingHalfPushed, Takes;
    var n := Waiting(s)[0];
    var a := QueueFinds(s);
    var s1, i := PollComesTo(s, a);
    var j;
    s', j := LoadingDelivers(s1);
    ConsumesOn(s, s1, s', i, j);
    k := i + j;
    LooksBeside(s', s');
    TakesOn(s, s1, s', s', n);
    SameThere(s, s1, n);
    StaysCalm(s, s');
    WaitingIs(s);
    WaitingIs(s');
    MovesOn(s.q.out, Waiting(s), n, s'.q.log, Waiting(s'), if StaysQueued(s.nodes[n]) then [n] else []);
  }

  lemma SameThere(s: State, s': State, n: nat)
    requires s'.nodes.Keys == s.nodes.Keys && SameCells(s, s') && n in s'.nodes
    ensures n in s.nodes && Report(n, s'.nodes[n]) == Report(n, s.nodes[n])
    ensures StaysQueued(s'.nodes[n]) == StaysQueued(s.nodes[n])
  {
    SameTaken(s.nodes[n], s'.nodes[n]);
  }

  lemma MovesOn(out: seq<nat>, ids: seq<nat>, n: nat, log: seq<nat>, ids': seq<nat>, more: seq<nat>)
    requires ids != [] && ids[0] == n && log == out + [n] + ids' && log == out + ids + more
    ensures ids' == ids[1..] + more
  {
    assert log[|out| + 1..] == ids';
    assert log == out + [n] + (ids[1..] + more);
    assert log[|out| + 1..] == ids[1..] + more;
  }

  // ----- a whole poll -----

  /** What a poll that takes these nodes reports. */
  function Reports(s: State, ids: seq<nat>): seq<Event> {
    if ids == [] then [] else (if ids[0] in s.nodes then Report(ids[0], s.nodes[ids[0]]) else []) + Reports(s, ids[1..])
  }

  /** Node `n` in the queue once more, if it stays there. */
  function Requeued(s: State, n: nat): seq<nat> { if n in s.nodes && StaysQueued(s.nodes[n]) then [n] else [] }

  /** Those of them that stay in the queue. */
  function Staying(s: State, ids: seq<nat>): seq<nat> {
    if ids == [] then [] else Requeued(s, ids[0]) + Staying(s, ids[1..])
  }

  /** Another node was taken meanwhile. */
  lemma {:induction false} OthersReportTheSame(s: State, s': State, n: nat, ids: seq<nat>)
    requires s'.nodes.Keys == s.nodes.Keys && Takes(s, s', n) && n !in ids
    ensures Reports(s', ids) == Reports(s, ids) && Staying(s', ids) == Staying(s, ids)
  {
    if ids != [] {
      assert n !in ids[1..];
      OthersReportTheSame(s, s', n, ids[1..]);
      if ids[0] in s.nodes { SameTaken(s.nodes[ids[0]], s'.nodes[ids[0]]); }
    }
  }

  lemma {:induction false} IdsInChain(c: seq<Q.Ptr>, i: nat) returns (j: nat)
    requires i < |Q.Ids(c)|
    ensures i <= j < |c| && c[j] == Q.Node(Q.Ids(c)[i])
  {
    if c[0].Node? && i == 0 {
      j := 0;
    } else {
      var k := IdsInChain(c[1..], if c[0].Node? then i - 1 else i);
      j := k + 1;
    }
  }

  /** No node waits twice. */
  lemma {:induction false} WaitsOnce(c: seq<Q.Ptr>)
    requires Q.Distinct(c) && Q.Ids(c) != []
    ensures Q.Ids(c)[0] !in Q.Ids(c)[1..]
  {
    if c[0].Node? {
      var rest := Q.Ids(c[1..]);
      assert Q.Ids(c)[1..] == rest;
      forall i | 0 <= i < |rest| ensures rest[i] != c[0].id { var j := IdsInChain(c[1..], i); }
    } else {
      assert Q.Ids(c) == Q.Ids(c[1..]);
      WaitsOnce(c[1..]);
    }
  }

  lemma ChainIsDistinct(s: State)
    requires Inv(s)
    ensures Q.Distinct(s.q.chain)
  {
  }

  /** When nothing waits that was there at the beginning, the poll stops. */
  lemma PollStops(s: State) returns (s': State, k: nat)
    requires Calm(s) && (s.cons.until == Q.Null || s.cons.until.Node?)
    requires Waiting(s) == [] || s.cons.until == Q.Node(Waiting(s)[0])
    ensures k <= 11 && Consumes(s, s', k) && Inv(s') && s'.cons.Out? && s'.events == s.events
    ensures Beside(s, s') && SameCells(s, s') && Waiting(s') == Waiting(s)
  {
    hide StepCons, SameCells, OthersKept, P.AloneFor;
    var a := QueueFindsNone(s);
    hide Inv, P.NothingHalfPushed;
    s', k := PollComesTo(s, a);
    WaitingIs(s);
    WaitingIs(s');
  }

  lemma QueueFindsNone(s: State) returns (k: nat)
    requires Calm(s) && (s.cons.until == Q.Null || s.cons.until.Node?)
    requires Waiting(s) == [] || s.cons.until == Q.Node(Waiting(s)[0])
    ensures k <= 9
    ensures var c := P.AloneFor(s.q.(cons := Q.Deq(s.cons.until)), k).cons;
            c.GotDequeued? && !c.result.Data? && Handed(c) == []
  {
    WaitingIs(s);
    PollBegins(s);
    var q := s.q.(cons := Q.Deq(s.cons.until));
    assert Q.Inv(q) && !P.HasNodeFor(q, s.cons.until) && P.NothingHalfPushed(q);
    hide Inv, Q.Inv, P.HasNodeFor, P.NothingHalfPushed;
    k := P.DequeueAloneIsEmpty(q, s.cons.until);
  }

  /** One round of a poll: `todo` waited when it began, `again` was requeued since. */
  lemma PollRound(s: State, todo: seq<nat>, again: seq<nat>) returns (s': State, k: nat)
    requires Calm(s) && Waiting(s) == todo + again && todo != []
    requires s.cons.until == if again == [] then Q.Null else Q.Node(again[0])
    ensures k <= 20 && Consumes(s, s', k) && Calm(s') && Beside(s, s')
    ensures var n, again' := todo[0], again + Requeued(s, todo[0]);
            && Waiting(s') == todo[1..] + again' && n in s.nodes && s'.events == s.events + Report(n, s.nodes[n])
            && s'.cons.until == if again' == [] then Q.Null else Q.Node(again'[0])
    ensures Reports(s', todo[1..]) == Reports(s, todo[1..]) && Staying(s', todo[1..]) == Staying(s, todo[1..])
  {
    hide Calm, StepCons, SameCells, OthersKept, Waiting, Takes, StaysQueued, Report, Reports, Staying, Consumes;
    NotTheFirst(s, todo, again);
    s', k := PollTakesOldest(s);
    RestWaits(todo, again, Requeued(s, todo[0]));
    OthersReportTheSame(s, s', todo[0], todo[1..]);
  }

  lemma {:induction false} PollGoesOn(s: State, todo: seq<nat>, again: seq<nat>) returns (s': State, k: nat)
    requires Calm(s) && Waiting(s) == todo + again
    requires s.cons.until == if again == [] then Q.Null else Q.Node(again[0])
    ensures k <= 20 * |todo| + 11 && Consumes(s, s', k) && Inv(s') && s'.cons.Out? && Beside(s, s')
    ensures s'.events == s.events + Reports(s, todo) && Waiting(s') == again + Staying(s, todo)
    decreases |todo|
  {
    hide Inv, Calm, StepCons, SameCells, OthersKept, Waiting, StaysQueued, Report, Consumes;
    if todo == [] {
      assert todo + again == again;
      s', k := PollStops(s);
    } else {
      var s1, i := PollRound(s, todo, again);
      var j;
      s', j := PollGoesOn(s1, todo[1..], again + Requeued(s, todo[0]));
      ConsumesOn(s, s1, s', i, j);
      k := i + j;
      BesideOn(s, s1, s');
    }
  }

  lemma RestWaits(todo: seq<nat>, again: seq<nat>, more: seq<nat>)
    requires todo != []
    ensures (todo + again)[1..] + more == todo[1..] + (again + more)
  {
  }

  lemma NotTheFirst(s: State, todo: seq<nat>, again: seq<nat>)
    requires Calm(s) && Waiting(s) == todo + again && todo != []
    ensures todo[0] !in todo[1..] && todo[0] !in again
    ensures Waiting(s) != [] && Waiting(s)[0] == todo[0]
  {
    ChainIsDistinct(s);
    WaitsOnce(s.q.chain);
    hide Inv;
    assert (todo + again)[1..] == todo[1..] + again;
  }

  /** A poll that nobody disturbs, with no push half done, ends: it has taken every node that waited
      when it began, once and in order, has reported those that are not dropped and have something to
      report, each with what is ready and of interest and under its latest token, and has left just
      the level-triggered ones of these waiting, in order. */
  lemma PollDeliversAll(s: State) returns (s': State, k: nat)
    requires Inv(s) && s.cons == Polling(Q.Null) && !s.closing && P.NothingHalfPushed(s.q)
    ensures k <= 20 * |Waiting(s)| + 11 && Consumes(s, s', k) && Inv(s') && s'.cons.Out? && Beside(s, s')
    ensures s'.events == s.events + Reports(s, Waiting(s)) && Waiting(s') == Staying(s, Waiting(s))
  {
    hide Inv;
    assert Waiting(s) + [] == Waiting(s);
    s', k := PollGoesOn(s, Waiting(s), []);
  }
}
