/** Registered readiness nodes on top of the queue: the atomic state word with its compare
    and swap loops, the three-slot token buffer, the update lock and the reference counts,
    for any number of threads using `Registration` and `SetReadiness` handles and one
    consumer inside `Poll`. One step is one atomic operation. */
module ReadinessNodes {
  import Q = MpscQueue

  datatype Bit = Readable | Writable | Error | Hup
  type Ready = set<Bit>

  /** The packed `ReadinessState` word. */
  datatype Word = Word(ready: Ready, interest: Ready, edge: bool, oneshot: bool,
                       rd: nat, wr: nat, queued: bool, dropped: bool)
  {
    function Effective(): Ready { ready * interest }
  }

  function SetQueuedIfReady(w: Word): Word {
    if w.Effective() != {} then w.(queued := true) else w
  }

  /** The slot that is neither being read nor published. */
  function NextTokenPos(rd: nat, wr: nat): (pos: nat)
    requires rd < 3 && wr < 3
    ensures pos < 3 && pos != rd && pos != wr
  {
    match wr
    case 0 => (if rd == 1 then 2 else 1)
    case 1 => (if rd == 0 then 2 else if rd == 2 then 0 else 2)
    case _ => (if rd == 0 then 1 else 0)
  }

  datatype Holder = Unlocked | LockedBy(t: nat)
  /** The queue's counted reference to a node: none, its pointer set but not yet counted,
      counted, or given back. */
  datatype QueueRef = NoRef | Claimed(t: nat) | Held | Released
  /** Who is in charge of a node whose queued bit is set. */
  datatype Owner = Nobody | Chained | By(t: nat) | ConsumerHas | Gone

  /** A node: its shared memory, then history: the live handles (0 is the `Registration`), the
      queue's reference, the owner of the queued bit, the thread that set the dropped bit and
      the tokens installed so far. */
  datatype Node = Node(
    word: Word, slots: seq<nat>, associated: bool, refs: int, lock: Holder,
    handles: set<nat>, qref: QueueRef, owner: Owner, dropper: nat, tokens: seq<nat>)

  datatype Args = Args(token: nat, interest: Ready, edge: bool, oneshot: bool)

  /** A thread inside an operation on node `n` through handle `h`; each constructor names the
      atomic operation due next. */
  datatype Op =
    | SetLoad(n: nat, h: nat, ready: Ready)
    | SetCas(n: nat, h: nat, ready: Ready, seen: Word)
    | UpdClaim(n: nat, h: nat, args: Args)                          // CAS the queue pointer
    | UpdCount(n: nat, h: nat, args: Args)                          // count the queue's reference
    | UpdLock(n: nat, h: nat, args: Args)                           // CAS the update lock
    | UpdLoad(n: nat, h: nat, args: Args)
    | UpdWrite(n: nat, h: nat, args: Args, seen: Word, pos: nat)    // write a token slot
    | UpdCas(n: nat, h: nat, args: Args, seen: Word, pos: nat)
    | UpdUnlock(n: nat, h: nat, owes: bool)
    | Enqueue(n: nat, h: nat, dropping: bool)                       // load the queue pointer
    | Pushing(n: nat, h: nat, dropping: bool)                       // inside enqueue_node
    | GiveBack(n: nat, h: nat, dropping: bool)                      // release_node: queue closed
    | DropFlag(n: nat, h: nat)                                      // flag_as_dropped
    | DropHandle(n: nat, h: nat)                                    // release_node of the handle

  /** The consumer; `until` is the first node it requeued in this poll. */
  datatype Cons =
    | Out
    | Polling(until: Q.Ptr)
    | Dequeuing(until: Q.Ptr)
    | Loading(n: nat, until: Q.Ptr)
    | Casing(n: nat, until: Q.Ptr, seen: Word, token: nat)
    | Requeue(n: nat, until: Q.Ptr, slot: nat, ready: Ready, token: nat)
    | Requeuing(n: nat, until: Q.Ptr, slot: nat, ready: Ready, token: nat)
    | Reading(n: nat, until: Q.Ptr, slot: nat, ready: Ready, token: nat)
    | Dropping(n: nat, until: Q.Ptr)
    | Preparing
    | Closing
    | Draining
    | DrainRelease(n: nat)

  datatype Event = Event(n: nat, ready: Ready, token: nat)

  datatype State = State(q: Q.State, nodes: map<nat, Node>, ops: map<nat, Op>, cons: Cons, closing: bool,
                         events: seq<Event>)

  function Init(): State { State(Q.Init(), map[], map[], Out, false, []) }

  // ----- steps of the handles -----

  /** `new2` leaves the node without a queue; `new_priv` associates and counts it. */
  function Create(s: State, n: nat, queue: bool, a: Args): State {
    var interest := if queue then a.interest else {};
    s.(nodes := s.nodes[n :=
      Node(Word({}, interest, a.edge, a.oneshot, 0, 0, false, false), [a.token, 0, 0], queue,
           if queue then 3 else 2, Unlocked,
           {0, 1}, if queue then Held else NoRef, Nobody, 0, [a.token])])
  }

  /** Cloning a `SetReadiness`. */
  function Clone(s: State, n: nat, h: nat): State
    requires n in s.nodes
  {
    var d := s.nodes[n];
    s.(nodes := s.nodes[n := d.(refs := d.refs + 1, handles := d.handles + {h})])
  }

  function SetOp(s: State, t: nat, op: Op): State { s.(ops := s.ops[t := op]) }
  function EndOp(s: State, t: nat): State { s.(ops := s.ops - {t}) }
  function SetNode(s: State, n: nat, d: Node): State { s.(nodes := s.nodes[n := d]) }

  function AfterPush(s: State, t: nat, n: nat, h: nat, dropping: bool): State {
    if dropping then SetOp(s, t, DropHandle(n, h)) else EndOp(s, t)
  }

  /** One atomic operation of thread `t`, except inside `enqueue_node`. */
  function StepOp(s: State, t: nat): State
    requires t in s.ops && s.ops[t].n in s.nodes
    requires |s.nodes[s.ops[t].n].slots| == 3 && s.nodes[s.ops[t].n].word.rd < 3 && s.nodes[s.ops[t].n].word.wr < 3
    requires s.ops[t].UpdWrite? ==> s.ops[t].pos < 3
  {
    var d := s.nodes[s.ops[t].n];
    match s.ops[t]
    case SetLoad(n, h, r) => SetOp(s, t, SetCas(n, h, r, d.word))
    case SetCas(n, h, r, seen) =>
      if seen.dropped then EndOp(s, t)
      else if d.word != seen then SetOp(s, t, SetCas(n, h, r, d.word))
      else
        var next := SetQueuedIfReady(seen.(ready := r));
        if !seen.queued && next.queued then
          SetOp(SetNode(s, n, d.(word := next, owner := By(t))), t, Enqueue(n, h, false))
        else EndOp(SetNode(s, n, d.(word := next)), t)
    case UpdClaim(n, h, a) =>
      if d.associated then SetOp(s, t, UpdLock(n, h, a))
      else SetOp(SetNode(s, n, d.(associated := true, qref := Claimed(t))), t, UpdCount(n, h, a))
    case UpdCount(n, h, a) =>
      SetOp(SetNode(s, n, d.(refs := d.refs + 1, qref := Held)), t, UpdLock(n, h, a))
    case UpdLock(n, h, a) =>
      if d.lock.LockedBy? then EndOp(s, t)
      else SetOp(SetNode(s, n, d.(lock := LockedBy(t))), t, UpdLoad(n, h, a))
    case UpdLoad(n, h, a) =>
      if a.token != d.slots[d.word.wr] then SetOp(s, t, UpdWrite(n, h, a, d.word, NextTokenPos(d.word.rd, d.word.wr)))
      else SetOp(s, t, UpdCas(n, h, a, d.word, d.word.wr))
    case UpdWrite(n, h, a, seen, pos) =>
      SetOp(SetNode(s, n, d.(slots := d.slots[pos := a.token])), t, UpdCas(n, h, a, seen, pos))
    case UpdCas(n, h, a, seen, pos) =>
      if d.word != seen then SetOp(s, t, UpdCas(n, h, a, d.word, pos))
      else
        var next := SetQueuedIfReady(seen.(wr := pos, interest := a.interest, edge := a.edge, oneshot := a.oneshot));
        var owes := !seen.queued && next.queued;
        SetOp(SetNode(s, n, d.(word := next, owner := if owes then By(t) else d.owner, tokens := d.tokens + [a.token])),
              t, UpdUnlock(n, h, owes))
    case UpdUnlock(n, h, owes) =>
      var unlocked := SetNode(s, n, d.(lock := Unlocked));
      if owes then SetOp(unlocked, t, Enqueue(n, h, false)) else EndOp(unlocked, t)
    case Enqueue(n, h, dropping) =>
      if d.associated then SetOp(s.(q := Q.Begin(s.q, Q.Producer(t), Q.Node(n))), t, Pushing(n, h, dropping))
      else AfterPush(s, t, n, h, dropping)
    case Pushing(_, _, _) => s
    case GiveBack(n, h, dropping) =>
      AfterPush(SetNode(s, n, d.(refs := d.refs - 1, qref := Released, owner := Gone)), t, n, h, dropping)
    case DropFlag(n, h) =>
      var flagged := d.(word := d.word.(dropped := true, queued := true), dropper := t,
                        owner := if !d.word.queued && d.associated then By(t) else d.owner);
      SetOp(SetNode(s, n, flagged), t, if d.word.queued then DropHandle(n, h) else Enqueue(n, h, true))
    case DropHandle(n, h) => EndOp(SetNode(s, n, d.(refs := d.refs - 1, handles := d.handles - {h})), t)
  }

  /** One atomic operation of `t` inside `enqueue_node`, or its return. */
  function StepPushing(s: State, t: nat): State
    requires t in s.ops && s.ops[t].Pushing? && s.ops[t].n in s.nodes && Q.Producer(t) in s.q.pushes
  {
    var op := s.ops[t];
    var p := s.q.pushes[Q.Producer(t)];
    if p.Pushed? then AfterPush(s.(q := Q.Finish(s.q, Q.Producer(t))), t, op.n, op.h, op.dropping)
    else if p.Rejected? then SetOp(s.(q := Q.Finish(s.q, Q.Producer(t))), t, GiveBack(op.n, op.h, op.dropping))
    else HandToChain(s.(q := Q.StepPush(s.q, Q.Producer(t))), op.n, p)
  }

  /** A won head CAS hands the node over to the chain. */
  function HandToChain(s: State, n: nat, before: Q.Push): State
    requires n in s.nodes
  {
    if before.Try? && Q.Node(n) in s.q.chain then SetNode(s, n, s.nodes[n].(owner := Chained)) else s
  }

  // ----- steps of the consumer -----

  /** The change `ReadinessQueue::poll` wants to make to a word it read. */
  function Consumed(w: Word): Word {
    var a := if w.edge then
               (if w.oneshot && w.Effective() != {} then w.(queued := false, interest := {}) else w.(queued := false))
             else if w.Effective() == {} then w.(queued := false) else w;
    a.(rd := w.wr)
  }

  function Goto(s: State, c: Cons): State { s.(cons := c) }

  function AfterCas(s: State, n: nat, until: Q.Ptr, seen: Word, token: nat): State {
    var next := Consumed(seen);
    Goto(s, if next.queued then Requeue(n, until, next.rd, seen.Effective(), token)
            else Reading(n, until, next.rd, seen.Effective(), token))
  }

  function LastToken(d: Node): nat { if d.tokens == [] then 0 else d.tokens[|d.tokens| - 1] }

  function ReleaseQueueRef(s: State, n: nat): State
    requires n in s.nodes
  {
    SetNode(s, n, s.nodes[n].(refs := s.nodes[n].refs - 1, qref := Released, owner := Gone))
  }

  /** The tail is handed out by the step from `q` to `q'`. */
  predicate Hands(q: Q.State, q': Q.State) { Q.HandsOut(q'.cons) && !Q.HandsOut(q.cons) }

  /** A node handed out by the queue is now in the consumer's charge. */
  function AfterQueue(s: State, q': Q.State): State {
    if Hands(s.q, q') && s.q.tail.Node? && s.q.tail.id in s.nodes then
      SetNode(s.(q := q'), s.q.tail.id, s.nodes[s.q.tail.id].(owner := ConsumerHas))
    else s.(q := q')
  }

  /** One atomic operation of the consumer on the queue. */
  function StepQueue(s: State): State {
    AfterQueue(s, if Q.Consumer in s.q.pushes && !(s.q.cons.DeqPushEnd? && s.q.pushes[Q.Consumer].Pushed?)
                  then Q.StepPush(s.q, Q.Consumer) else Q.StepCons(s.q))
  }

  function StepCons(s: State): State
    requires match s.cons
             case Loading(n, _) => n in s.nodes
             case Casing(n, _, _, _) => n in s.nodes
             case Requeuing(n, _, _, _, _) => n in s.nodes
             case Reading(n, _, slot, _, _) => n in s.nodes && slot < |s.nodes[n].slots|
             case Dropping(n, _) => n in s.nodes
             case DrainRelease(n) => n in s.nodes
             case _ => true
  {
    match s.cons
    case Out => s
    case Polling(until) => Goto(s.(q := Q.StartDequeue(s.q, until)), Dequeuing(until))
    case Dequeuing(until) =>
      if s.q.cons.GotDequeued? then
        Goto(s.(q := s.q.(cons := Q.Idle)),
             if s.q.cons.result.Data? && s.q.cons.result.node.Node? then Loading(s.q.cons.result.node.id, until)
             else Out)
      else StepQueue(s)
    case Loading(n, until) => Goto(s, Casing(n, until, s.nodes[n].word, LastToken(s.nodes[n])))
    case Casing(n, until, seen, token) =>
      var d := s.nodes[n];
      if seen.dropped then Goto(s, Dropping(n, until))
      else if Consumed(seen) == seen then AfterCas(s, n, until, seen, token)
      else if d.word == seen then
        var next := Consumed(seen);
        AfterCas(SetNode(s, n, d.(word := next, owner := if next.queued then d.owner else Nobody)),
                 n, until, seen, LastToken(d))
      else Goto(s, Casing(n, until, d.word, LastToken(d)))
    case Requeue(n, until, slot, ready, token) =>
      Goto(s.(q := Q.Begin(s.q, Q.Consumer, Q.Node(n))),
           Requeuing(n, if until == Q.Null then Q.Node(n) else until, slot, ready, token))
    case Requeuing(n, until, slot, ready, token) =>
      if Q.Consumer !in s.q.pushes then s
      else if s.q.pushes[Q.Consumer].Pushed? then
        Goto(s.(q := Q.Finish(s.q, Q.Consumer)), Reading(n, until, slot, ready, token))
      else HandToChain(s.(q := Q.StepPush(s.q, Q.Consumer)), n, s.q.pushes[Q.Consumer])
    case Reading(n, until, slot, ready, _) =>
      Goto(if ready == {} then s
           else s.(events := s.events + [Event(n, ready, s.nodes[n].slots[slot])]), Polling(until))
    case Dropping(n, until) => Goto(ReleaseQueueRef(s, n), Polling(until))
    case Preparing =>
      if s.q.cons.GotPrepared? || s.q.cons.GotCleared? then Goto(s.(q := s.q.(cons := Q.Idle)), Out) else StepQueue(s)
    case Closing =>
      if Q.Consumer !in s.q.pushes then s
      else if s.q.pushes[Q.Consumer].Pushed? then Goto(s.(q := Q.Finish(s.q, Q.Consumer)), Draining)
      else s.(q := Q.StepPush(s.q, Q.Consumer))
    case Draining =>
      if s.q.cons.Idle? then s.(q := Q.StartDequeue(s.q, Q.Null))
      else if s.q.cons.GotDequeued? then
        Goto(s.(q := s.q.(cons := Q.Idle)),
             if s.q.cons.result.Data? && s.q.cons.result.node.Node? then DrainRelease(s.q.cons.result.node.id)
             else if s.q.cons.result.Empty? then Out else Draining)
      else StepQueue(s)
    case DrainRelease(n) => Goto(ReleaseQueueRef(s, n), Draining)
  }

  // ----- the inductive invariant -----

  predicate Updating(op: Op) {
    op.UpdClaim? || op.UpdCount? || op.UpdLock? || InSection(op)
  }

  /** Inside the critical section of `update`. */
  predicate InSection(op: Op) { op.UpdLoad? || op.UpdWrite? || op.UpdCas? || op.UpdUnlock? }

  /** On the way to dropping its handle. */
  predicate Ending(op: Op) {
    op.DropFlag? || op.DropHandle? || (op.Enqueue? && op.dropping) || (op.Pushing? && op.dropping)
    || (op.GiveBack? && op.dropping)
  }

  /** Thread `t` set the queued bit of its node and has not got it into the chain yet. */
  predicate Owing(s: State, t: nat)
    requires t in s.ops
  {
    match s.ops[t]
    case UpdUnlock(_, _, owes) => owes
    case Enqueue(n, _, _) => n in s.nodes && s.nodes[n].associated
    case Pushing(_, _, _) =>
      Q.Producer(t) in s.q.pushes && (Q.Owes(s.q.pushes[Q.Producer(t)]) || s.q.pushes[Q.Producer(t)].Rejected?)
    case GiveBack(_, _, _) => true
    case _ => false
  }

  /** The consumer has dequeued node `n` and neither requeued nor dismissed it yet. */
  predicate Holds(s: State, n: nat) {
    match s.cons
    case Dequeuing(_) => Q.HandsOut(s.q.cons) && s.q.cons.result.node == Q.Node(n)
    case Draining => Q.HandsOut(s.q.cons) && s.q.cons.result.node == Q.Node(n)
    case Loading(m, _) => m == n
    case Casing(m, _, _, _) => m == n
    case Requeue(m, _, _, _, _) => m == n
    case Requeuing(m, _, _, _, _) => m == n && Q.Consumer in s.q.pushes && Q.Owes(s.q.pushes[Q.Consumer])
    case Dropping(m, _) => m == n
    case DrainRelease(m) => m == n
    case _ => false
  }

  /** A node's counts and token buffer. */
  predicate CellOk(d: Node) {
    && d.refs == |d.handles| + (if d.qref.Held? then 1 else 0)
    && |d.slots| == 3 && d.word.rd < 3 && d.word.wr < 3
    && d.tokens != [] && d.slots[d.word.wr] == LastToken(d)
    && (!d.word.dropped ==> 0 in d.handles)
    && (d.word.dropped ==> d.word.queued)
    && (d.associated <==> !d.qref.NoRef?)
    && (d.associated ==> (d.word.queued <==> !d.owner.Nobody?))
    && (!d.associated ==> d.owner.Nobody? && d.word.interest == {} && (d.word.queued <==> d.word.dropped))
    && (d.owner.Gone? <==> d.qref.Released?)
  }

  predicate NodeOk(s: State, n: nat)
    requires n in s.nodes
  {
    var d := s.nodes[n];
    && CellOk(d)
    && (d.owner.Chained? <==> Q.Node(n) in s.q.chain)
    && (d.owner.By? ==> d.owner.t in s.ops && s.ops[d.owner.t].n == n && Owing(s, d.owner.t))
    && (d.owner.ConsumerHas? <==> Holds(s, n))
    && (d.qref.Claimed? ==> d.qref.t in s.ops && s.ops[d.qref.t].n == n && s.ops[d.qref.t].UpdCount?)
    && (d.qref.Released? ==> d.word.dropped || s.closing)
    && (d.lock.LockedBy? ==> d.lock.t in s.ops && s.ops[d.lock.t].n == n && InSection(s.ops[d.lock.t]))
    && (d.word.dropped && 0 in d.handles ==>
          d.dropper in s.ops && s.ops[d.dropper].n == n && s.ops[d.dropper].h == 0
          && Ending(s.ops[d.dropper]) && !s.ops[d.dropper].DropFlag?)
  }

  predicate OpOk(s: State, t: nat)
    requires t in s.ops
  {
    var op := s.ops[t];
    && op.n in s.nodes
    && OpCellOk(s.nodes[op.n], op, t)
    && (Owing(s, t) ==> s.nodes[op.n].owner == By(t))
    && (Updating(op) ==> !s.closing)
    && (op.GiveBack? ==> s.closing)
    && (op.Pushing? <==> Q.Producer(t) in s.q.pushes)
    && (op.Pushing? ==> s.q.pushes[Q.Producer(t)].node == Q.Node(op.n))
  }

  /** What an operation relies on in its own node. */
  predicate OpCellOk(d: Node, op: Op, t: nat) {
    && op.h in d.handles
    && (Updating(op) ==> op.h == 0 && !d.word.dropped)
    && (op.UpdCount? ==> d.qref == Claimed(t))
    && (op.Enqueue? && !op.dropping ==> d.associated)
    && (op.UpdLock? || InSection(op) ==> d.associated)
    && (InSection(op) ==> d.lock == LockedBy(t))
    && (op.UpdWrite? ==> op.pos < 3 && op.pos != d.word.rd && op.pos != d.word.wr)
    && (op.UpdCas? ==> op.pos < 3 && |d.slots| == 3 && d.slots[op.pos] == op.args.token
                       && (op.pos == d.word.wr || op.pos != d.word.rd))
    && (op.DropFlag? ==> op.h == 0 && !d.word.dropped)
    && (Ending(op) && !op.DropFlag? && !op.DropHandle? ==> op.h == 0)
    && (Ending(op) && !op.DropFlag? && op.h == 0 ==> d.word.dropped)
  }

  /** A handle being dropped is used by nobody else. */
  predicate Exclusive(s: State) {
    forall t, u :: t in s.ops && u in s.ops && t != u && Ending(s.ops[t]) && s.ops[t].n == s.ops[u].n
                   ==> s.ops[t].h != s.ops[u].h
  }

  /** Inside `prepare_for_sleep`, or `clear_sleep_marker` on its own. */
  predicate PrepCons(c: Q.Cons) {
    c.PrepHead? || c.PrepStore? || c.PrepCas? || c.GotPrepared? || c.GotCleared?
    || (c.ClearStore? && !c.deq) || (c.ClearCas? && !c.deq)
  }

  /** Inside `dequeue_node`. */
  predicate DequeueCons(c: Q.Cons) {
    c.Deq? || c.DeqSkipped? || c.DeqHead? || c.DeqPushEnd? || c.DeqAgain? || c.GotDequeued?
    || (c.ClearStore? && c.deq) || (c.ClearCas? && c.deq)
  }

  /** The consumer's program counter against the queue's. */
  predicate ConsQueueOk(s: State) {
    && (s.cons.Dequeuing? || s.cons.Preparing? || s.cons.Draining? || s.q.cons.Idle?)
    && (s.cons.Preparing? ==> PrepCons(s.q.cons))
    && (s.cons.Dequeuing? || (s.cons.Draining? && !s.q.cons.Idle?) ==> DequeueCons(s.q.cons))
    && (s.cons.Requeuing? || s.cons.Closing? ==> Q.Consumer in s.q.pushes)
    && (Q.Consumer in s.q.pushes ==> s.cons.Requeuing? || s.cons.Closing? || s.q.cons.DeqPushEnd?)
    && (s.cons.Requeuing? ==> s.q.pushes[Q.Consumer].node == Q.Node(s.cons.n))
    && (s.cons.Closing? ==> s.q.pushes[Q.Consumer].node == Q.Closed)
    && (s.cons.Loading? || s.cons.Casing? || s.cons.Requeue? ==> s.q.tail != Q.Sleep)
    && (s.cons.Dequeuing? && Q.HandsOut(s.q.cons) ==> s.q.tail != Q.Sleep)
    && (s.cons.Closing? || s.cons.Draining? || s.cons.DrainRelease? ==> s.closing)
    && (s.closing ==> s.cons.Closing? || s.cons.Draining? || s.cons.DrainRelease? || s.cons.Out?)
  }

  /** What the consumer relies on in the node it works on. */
  predicate ConsNodeOk(s: State) {
    match s.cons
    case Dequeuing(_) => GivenOk(s)
    case Draining => GivenOk(s)
    case Loading(n, _) => n in s.nodes
    case Casing(n, _, seen, token) =>
      && n in s.nodes
      && seen.queued && seen.rd == s.nodes[n].word.rd && seen.wr < 3
      && (seen.dropped ==> s.nodes[n].word.dropped)
      && token in s.nodes[n].tokens
      && (seen.rd == seen.wr ==> |s.nodes[n].slots| == 3 && s.nodes[n].slots[seen.rd] == token)
    case Requeue(n, _, slot, _, token) => n in s.nodes && ReadOk(s.nodes[n], slot, token)
    case Requeuing(n, _, slot, _, token) => n in s.nodes && ReadOk(s.nodes[n], slot, token)
    case Reading(n, _, slot, _, token) => n in s.nodes && ReadOk(s.nodes[n], slot, token)
    case Dropping(n, _) => n in s.nodes && s.nodes[n].word.dropped
    case DrainRelease(n) => n in s.nodes
    case _ => true
  }

  /** A node just handed out by the queue is a known one. */
  predicate GivenOk(s: State) {
    Q.HandsOut(s.q.cons) ==> s.q.cons.result.node.Node? && s.q.cons.result.node.id in s.nodes
  }

  /** The slot about to be read is the read position and still holds an installed token; the
      queue still counts as a user of the node. */
  predicate ReadOk(d: Node, slot: nat, token: nat) {
    |d.slots| == 3 && slot == d.word.rd && slot < 3 && d.slots[slot] == token && token in d.tokens
    && (d.qref.Held? || d.qref.Claimed?)
  }

  /** Only a queue that is being closed turns pushes away. */
  predicate ClosedOk(s: State) {
    && (Q.Closed in s.q.chain ==> s.closing)
    && (forall t :: t in s.q.pushes ==>
          s.q.pushes[t].Rejected? || (s.q.pushes[t].Try? && s.q.pushes[t].prev.Closed?) ==> s.closing)
  }

  ghost predicate KnownOk(s: State) {
    && (forall n :: Q.Node(n) in s.q.chain ==> n in s.nodes)
    && (forall t :: Q.Producer(t) in s.q.pushes ==> t in s.ops)
  }

  predicate NodesOk(s: State) { forall n :: n in s.nodes ==> NodeOk(s, n) }
  predicate OpsOk(s: State) { forall t :: t in s.ops ==> OpOk(s, t) }

  ghost predicate Inv(s: State) {
    && Q.Inv(s.q)
    && NodesOk(s)
    && OpsOk(s)
    && Exclusive(s)
    && ConsQueueOk(s)
    && ConsNodeOk(s)
    && ClosedOk(s)
    && KnownOk(s)
  }
}
