/** The intrusive multi-producer single-consumer readiness queue: every atomic operation
    of `enqueue_node`, `dequeue_node`, `clear_sleep_marker` and `prepare_for_sleep` is one
    step, and any number of producer threads interleave with the one consumer.
    Memory is sequentially consistent; nodes are ids instead of addresses. */
module MpscQueue {
  datatype Ptr = Null | End | Sleep | Closed | Node(id: nat)
  datatype Thread = Producer(t: nat) | Consumer

  /** A thread inside `enqueue_node`; each constructor names the atomic operation due next. */
  datatype Push =
    | Clear(node: Ptr)                          // store null in node.next
    | Load(node: Ptr)                           // load head
    | Try(node: Ptr, prev: Ptr)                 // compare prev with closed, CAS head
    | Link(node: Ptr, prev: Ptr, sig: nat)      // store node in prev.next
    | Pushed(node: Ptr, wake: bool, sig: nat)   // returned; `wake` is the result
    | Rejected(node: Ptr)                       // the queue is closed

  datatype Dequeued = Empty | Inconsistent | Data(node: Ptr)

  /** The consumer; each constructor names the atomic operation due next. */
  datatype Cons =
    | Idle
    | Deq(until: Ptr)          // load tail.next
    | DeqSkipped(until: Ptr)   // load tail.next, the tail marker having been skipped
    | DeqHead                  // load head
    | DeqPushEnd               // the end marker is being pushed by this thread
    | DeqAgain                 // load tail.next
    | ClearStore(deq: bool)    // store null in end.next; `deq` when called by dequeue_node
    | ClearCas(deq: bool)      // CAS head from sleep to end
    | PrepHead                 // load head
    | PrepStore                // store null in sleep.next
    | PrepCas                  // CAS head from end to sleep
    | GotDequeued(result: Dequeued)
    | GotCleared
    | GotPrepared(maySleep: bool)

  /** The shared memory and the threads, then history variables: `chain` is the queue from
      tail to head in head-CAS order, `owed` maps a link that is not stored yet to the
      thread that owes it, `log` and `out` are the ids pushed and dequeued so far,
      `epoch` counts the sleeps, `first` records who pushed onto the sleep marker in an
      epoch and `called` the epochs whose awakener was called. */
  datatype State = State(
    head: Ptr, tail: Ptr, next: map<Ptr, Ptr>, pushes: map<Thread, Push>, cons: Cons,
    chain: seq<Ptr>, owed: map<Ptr, Thread>, log: seq<nat>, out: seq<nat>,
    epoch: nat, first: map<nat, Thread>, called: set<nat>)

  function Init(): State {
    State(End, End, map[], map[], Idle, [End], map[], [], [], 0, map[], {})
  }

  function NextOf(s: State, p: Ptr): Ptr {
    if p in s.next then s.next[p] else Null
  }

  function IdOf(p: Ptr): seq<nat> { if p.Node? then [p.id] else [] }

  /** The ids of the registered nodes among `c`, in order. */
  function Ids(c: seq<Ptr>): seq<nat> {
    if c == [] then [] else IdOf(c[0]) + Ids(c[1..])
  }

  predicate Marker(p: Ptr) { p.End? || p.Sleep? || p.Closed? }

  // ----- steps of enqueue_node -----

  /** Entering `enqueue_node`. */
  function Begin(s: State, t: Thread, node: Ptr): State {
    s.(pushes := s.pushes[t := Clear(node)])
  }

  /** A successful head CAS: `node` becomes the head behind `prev`. */
  function Win(s: State, t: Thread, node: Ptr, prev: Ptr): State {
    s.(head := node,
       chain := s.chain + [node],
       owed := s.owed[prev := t],
       log := s.log + IdOf(node),
       first := if prev.Sleep? then s.first[s.epoch := t] else s.first,
       pushes := s.pushes[t := Link(node, prev, s.epoch)])
  }

  /** One atomic operation of the thread `t` inside `enqueue_node`. */
  function StepPush(s: State, t: Thread): State
    requires t in s.pushes
  {
    match s.pushes[t]
    case Clear(n) => s.(next := s.next[n := Null], pushes := s.pushes[t := Load(n)])
    case Load(n) => s.(pushes := s.pushes[t := Try(n, s.head)])
    case Try(n, p) =>
      if p.Closed? then
        s.(pushes := s.pushes[t := if n.End? then Pushed(n, false, 0) else Rejected(n)])
      else if s.head == p then Win(s, t, n, p)
      else s.(pushes := s.pushes[t := Try(n, s.head)])
    case Link(n, p, e) =>
      s.(next := s.next[p := n], owed := s.owed - {p}, pushes := s.pushes[t := Pushed(n, p.Sleep?, e)])
    case Pushed(_, _, _) => s
    case Rejected(_) => s
  }

  /** `enqueue_node` returns. A producer that got true calls the awakener; the consumer
      ignores the result of its own pushes. */
  function Finish(s: State, t: Thread): State
    requires t in s.pushes
  {
    var p := s.pushes[t];
    s.(pushes := s.pushes - {t},
       called := if t.Producer? && p.Pushed? && p.wake then s.called + {p.sig} else s.called)
  }

  // ----- steps of the consumer -----

  /** Moving the private tail pointer one node on. */
  function Advance(s: State, to: Ptr): State {
    s.(tail := to, chain := if s.chain == [] then [] else s.chain[1..])
  }

  /** The choice of `dequeue_node` once `next` of the tail is known and the tail is no marker
      that could be skipped. */
  function AfterNext(s: State, until: Ptr, next: Ptr): State {
    if s.tail == until then s.(cons := GotDequeued(Empty))
    else if next != Null then Take(s, next)
    else s.(cons := DeqHead)
  }

  function Take(s: State, next: Ptr): State {
    Advance(s, next).(cons := GotDequeued(Data(s.tail)),
                      out := s.out + IdOf(s.tail))
  }

  /** Entry of `clear_sleep_marker`, whose first test reads only the private tail. */
  function StartClear(s: State, deq: bool): State {
    if s.tail.Sleep? then s.(cons := ClearStore(deq)) else s.(cons := ClearResult(deq))
  }

  function ClearResult(deq: bool): Cons {
    if deq then GotDequeued(Empty) else GotCleared
  }

  function StartDequeue(s: State, until: Ptr): State { s.(cons := Deq(until)) }

  /** Entry of `prepare_for_sleep`, which first looks at the private tail. */
  function StartPrepare(s: State): State {
    s.(cons := if s.tail.Sleep? then PrepHead else if !s.tail.End? then GotPrepared(false) else PrepStore)
  }

  /** One atomic operation of the consumer. */
  function StepCons(s: State): State {
    match s.cons
    case Deq(until) =>
      var next := NextOf(s, s.tail);
      if !Marker(s.tail) then AfterNext(s, until, next)
      else if next == Null then StartClear(s, true)
      else Advance(s, next).(cons := DeqSkipped(until))
    case DeqSkipped(until) => AfterNext(s, until, NextOf(s, s.tail))
    case DeqHead =>
      if s.head != s.tail then s.(cons := GotDequeued(Inconsistent))
      else Begin(s, Consumer, End).(cons := DeqPushEnd)
    case DeqPushEnd =>
      if Consumer in s.pushes && s.pushes[Consumer].Pushed? then Finish(s, Consumer).(cons := DeqAgain)
      else s
    case DeqAgain =>
      var next := NextOf(s, s.tail);
      if next != Null then Take(s, next) else s.(cons := GotDequeued(Inconsistent))
    case ClearStore(deq) => s.(next := s.next[End := Null], cons := ClearCas(deq))
    case ClearCas(deq) =>
      if s.head == Sleep then s.(head := End, tail := End, chain := [End], cons := ClearResult(deq))
      else s.(cons := ClearResult(deq))
    case PrepHead => s.(cons := GotPrepared(s.head == Sleep))
    case PrepStore => s.(next := s.next[Sleep := Null], cons := PrepCas)
    case PrepCas =>
      if s.head == End then
        s.(head := Sleep, tail := Sleep, chain := [Sleep], epoch := s.epoch + 1, cons := GotPrepared(true))
      else s.(cons := GotPrepared(false))
    case _ => s
  }

  // ----- the inductive invariant -----

  predicate Distinct(c: seq<Ptr>) {
    forall i, j :: 0 <= i < j < |c| ==> c[i] != c[j]
  }

  /** `p` has entered `enqueue_node` with `node` and not yet won the head CAS. */
  predicate Owes(p: Push) { p.Clear? || p.Load? || p.Try? }

  /** tail to head is one duplicate-free chain; every link is stored or owed by one thread. */
  predicate ChainOk(s: State) {
    && s.chain != []
    && s.chain[0] == s.tail
    && s.chain[|s.chain| - 1] == s.head
    && Null !in s.chain
    && Distinct(s.chain)
    && NextOf(s, s.head) == Null
    && s.head !in s.owed
    && (forall i :: 0 <= i < |s.chain| - 1 ==> LinkOk(s, i))
    && (forall p :: p in s.owed ==> p in s.chain && s.owed[p] in s.pushes && s.pushes[s.owed[p]].Link?
                                    && s.pushes[s.owed[p]].prev == p)
  }

  predicate LinkOk(s: State, i: nat)
    requires i < |s.chain| - 1
  {
    if s.chain[i] in s.owed then
      NextOf(s, s.chain[i]) == Null && s.owed[s.chain[i]] in s.pushes
      && s.pushes[s.owed[s.chain[i]]].Link?
      && s.pushes[s.owed[s.chain[i]]].node == s.chain[i + 1]
    else NextOf(s, s.chain[i]) == s.chain[i + 1]
  }

  /** The sleep marker is only ever the tail, never beside the end marker; closed is the head. */
  predicate MarkersOk(s: State) {
    && (forall i :: 0 < i < |s.chain| ==> s.chain[i] != Sleep)
    && (forall i :: 0 <= i < |s.chain| - 1 ==> s.chain[i] != Closed)
    && (Sleep in s.chain ==> End !in s.chain)
  }

  predicate PushOk(s: State, t: Thread)
    requires t in s.pushes
  {
    var p := s.pushes[t];
    && p.node != Null && p.node != Sleep
    && (p.node.End? ==> t == Consumer && s.cons.DeqPushEnd?)
    && (p.node.Closed? ==> t == Consumer)
    && (t == Consumer && !p.node.End? ==> s.cons.Idle?)
    && (t == Consumer && !p.node.Closed? ==> NoSleeper(s, p))
    && (Owes(p) ==> p.node !in s.chain)
    && (p.Load? || p.Try? ==> NextOf(s, p.node) == Null)
    && (p.Try? ==> p.prev != Null)
    && (p.Link? ==>
          && p.prev in s.owed && s.owed[p.prev] == t
          && (p.prev.Sleep? ==> p.sig in s.first && s.first[p.sig] == t))
    && (p.Pushed? && p.wake ==> p.sig in s.first && s.first[p.sig] == t)
  }

  /** The consumer never requeues a node, or pushes the end marker, behind the sleep marker. */
  predicate NoSleeper(s: State, p: Push) {
    s.tail != Sleep && (p.Try? || p.Link? ==> p.prev != Sleep) && (p.Pushed? ==> !p.wake)
  }

  predicate PushesOk(s: State) {
    && (forall t :: t in s.pushes ==> PushOk(s, t))
    && (forall t, u :: t in s.pushes && u in s.pushes && t != u && Owes(s.pushes[t]) && Owes(s.pushes[u])
                       ==> s.pushes[t].node != s.pushes[u].node)
  }

  predicate ConsOk(s: State) {
    match s.cons
    case DeqSkipped(_) => !s.tail.End? && !s.tail.Sleep?
    case DeqHead => !s.tail.End? && !s.tail.Sleep?
    case DeqPushEnd => !s.tail.End? && !s.tail.Sleep? && Consumer in s.pushes && s.pushes[Consumer].node == End
    case DeqAgain => !s.tail.End? && !s.tail.Sleep?
    case ClearStore(_) => s.tail == Sleep
    case ClearCas(_) => s.tail == Sleep && NextOf(s, End) == Null
    case PrepHead => s.tail == Sleep
    case PrepStore => s.tail == End
    case PrepCas => s.tail == End && NextOf(s, Sleep) == Null
    case GotDequeued(r) => r.Data? ==> r.node.Node? && s.out != [] && s.out[|s.out| - 1] == r.node.id
    case GotPrepared(b) => b ==> s.tail == Sleep
    case _ => true
  }

  /** While the sleep marker is the tail, someone has pushed onto it exactly when the chain is
      longer, and then that thread still owes the awakener call or has made it. */
  predicate WakeOk(s: State) {
    && (forall e :: e in s.first ==> e <= s.epoch)
    && (forall e :: e in s.called ==> e in s.first)
    && (s.tail == Sleep ==> (s.epoch in s.first <==> |s.chain| > 1))
    && (forall e :: e in s.first && s.first[e].Producer? && e !in s.called ==> OwesWake(s, e))
    && (forall t :: t in s.pushes && s.pushes[t].Pushed? && s.pushes[t].wake ==> s.pushes[t].sig !in s.called)
    && (forall t :: t in s.pushes && s.pushes[t].Link? && s.pushes[t].prev.Sleep? ==> s.pushes[t].sig !in s.called)
  }

  /** The thread that pushed onto the sleep marker in epoch `e` is on its way to the awakener. */
  predicate OwesWake(s: State, e: nat)
    requires e in s.first
  {
    var t := s.first[e];
    && t in s.pushes
    && (|| (s.pushes[t].Link? && s.pushes[t].prev.Sleep? && s.pushes[t].sig == e)
        || (s.pushes[t].Pushed? && s.pushes[t].wake && s.pushes[t].sig == e))
  }

  /** First in, first out: what was pushed is what was dequeued and then what is queued. */
  predicate FifoOk(s: State) { s.log == s.out + Ids(s.chain) }

  predicate Inv(s: State) {
    ChainOk(s) && MarkersOk(s) && PushesOk(s) && ConsOk(s) && WakeOk(s) && FifoOk(s)
  }

  // ----- every step keeps the invariant -----

  /** What a caller of `enqueue_node` must respect: nobody else has the node. */
  predicate CanBegin(s: State, t: Thread, node: Ptr) {
    && t !in s.pushes
    && (node.Node? || (node.Closed? && t == Consumer))
    && node !in s.chain
    && (forall u :: u in s.pushes && Owes(s.pushes[u]) ==> s.pushes[u].node != node)
    && (t == Consumer ==> s.cons.Idle? && (node.Node? ==> s.tail != Sleep))
  }

  lemma InitInv()
    ensures Inv(Init())
  {
  }

  lemma BeginChain(s: State, t: Thread, node: Ptr)
    requires ChainOk(s) && CanBegin(s, t, node)
    ensures ChainOk(Begin(s, t, node))
  {
    forall i | 0 <= i < |s.chain| - 1 ensures LinkOk(Begin(s, t, node), i) { assert LinkOk(s, i); }
  }

  lemma BeginPushes(s: State, t: Thread, node: Ptr)
    requires PushesOk(s) && CanBegin(s, t, node)
    ensures PushesOk(Begin(s, t, node))
  {
    var s' := Begin(s, t, node);
    forall u | u in s'.pushes ensures PushOk(s', u) { if u != t { assert PushOk(s, u); } }
  }

  lemma BeginInv(s: State, t: Thread, node: Ptr)
    requires Inv(s) && CanBegin(s, t, node)
    ensures Inv(Begin(s, t, node))
  {
    hide ChainOk, PushesOk, WakeOk;
    BeginChain(s, t, node);
    BeginPushes(s, t, node);
    BeginWake(s, t, node);
  }

  lemma BeginWake(s: State, t: Thread, node: Ptr)
    requires WakeOk(s) && CanBegin(s, t, node)
    ensures WakeOk(Begin(s, t, node))
  {
  }

  /** A step of `enqueue_node` before or after the winning CAS leaves the chain as it is. */
  lemma PushChain(s: State, t: Thread)
    requires ChainOk(s) && t in s.pushes && PushOk(s, t)
    requires s.pushes[t].Clear? || s.pushes[t].Load? || (s.pushes[t].Try? && s.head != s.pushes[t].prev)
             || (s.pushes[t].Try? && s.pushes[t].prev.Closed?)
    ensures ChainOk(StepPush(s, t))
  {
    var s' := StepPush(s, t);
    forall i | 0 <= i < |s'.chain| - 1 ensures LinkOk(s', i) { assert LinkOk(s, i); }
  }

  lemma LinkChain(s: State, t: Thread)
    requires ChainOk(s) && t in s.pushes && PushOk(s, t) && s.pushes[t].Link?
    ensures ChainOk(StepPush(s, t))
  {
    var s' := StepPush(s, t);
    forall i | 0 <= i < |s'.chain| - 1 ensures LinkOk(s', i) { assert LinkOk(s, i); }
  }

  lemma WinChain(s: State, t: Thread)
    requires ChainOk(s) && t in s.pushes && s.pushes[t].Try? && PushOk(s, t)
    ensures ChainOk(Win(s, t, s.pushes[t].node, s.head))
  {
    var s' := Win(s, t, s.pushes[t].node, s.head);
    forall i | 0 <= i < |s'.chain| - 1 ensures LinkOk(s', i) {
      if i < |s.chain| - 1 {
        assert LinkOk(s, i);
        assert s.chain[i] != s.head;
      }
    }
  }

  lemma ClearPushes(s: State, t: Thread)
    requires PushesOk(s) && t in s.pushes && s.pushes[t].Clear?
    ensures PushesOk(StepPush(s, t))
  {
    var s' := StepPush(s, t);
    assert PushOk(s, t);
    forall u | u in s'.pushes ensures PushOk(s', u) { assert PushOk(s, u); }
  }

  lemma LinkPushes(s: State, t: Thread)
    requires PushesOk(s) && t in s.pushes && s.pushes[t].Link?
    requires forall p :: p in s.owed ==> p in s.chain
    ensures PushesOk(StepPush(s, t))
  {
    var s' := StepPush(s, t);
    assert PushOk(s, t);
    forall u | u in s'.pushes ensures PushOk(s', u) { assert PushOk(s, u); }
  }

  lemma LoadPushes(s: State, t: Thread)
    requires PushesOk(s) && t in s.pushes && (s.pushes[t].Load? || (s.pushes[t].Try? && !s.pushes[t].prev.Closed?))
    requires s.pushes[t].Try? ==> s.head != s.pushes[t].prev
    requires s.head != Null && (s.tail != Sleep ==> s.head != Sleep)
    ensures PushesOk(StepPush(s, t))
  {
    var s' := StepPush(s, t);
    forall u | u in s'.pushes ensures PushOk(s', u) { assert PushOk(s, u); }
  }

  lemma RejectPushes(s: State, t: Thread)
    requires PushesOk(s) && t in s.pushes && s.pushes[t].Try? && s.pushes[t].prev.Closed?
    ensures PushesOk(StepPush(s, t))
  {
    var s' := StepPush(s, t);
    forall u | u in s'.pushes ensures PushOk(s', u) { assert PushOk(s, u); }
  }

  lemma WinPushes(s: State, t: Thread)
    requires PushesOk(s) && t in s.pushes && s.pushes[t].Try? && s.head == s.pushes[t].prev
    requires s.head !in s.owed && (s.head.Sleep? ==> s.epoch !in s.first)
    ensures PushesOk(Win(s, t, s.pushes[t].node, s.head))
  {
    var s' := Win(s, t, s.pushes[t].node, s.head);
    assert PushOk(s, t) && Owes(s.pushes[t]);
    forall u | u in s'.pushes ensures PushOk(s', u) { assert PushOk(s, u); }
  }

  lemma LinkWake(s: State, t: Thread)
    requires WakeOk(s) && t in s.pushes && PushOk(s, t) && s.pushes[t].Link?
    ensures WakeOk(StepPush(s, t))
  {
  }

  lemma PushWake(s: State, t: Thread)
    requires WakeOk(s) && t in s.pushes && PushOk(s, t)
    requires s.pushes[t].Try? ==> s.head != s.pushes[t].prev || s.pushes[t].prev.Closed?
    ensures WakeOk(StepPush(s, t))
  {
    if s.pushes[t].Link? { LinkWake(s, t); }
  }

  lemma WinWake(s: State, t: Thread)
    requires WakeOk(s) && t in s.pushes && s.pushes[t].Try? && s.head == s.pushes[t].prev
    requires s.chain != [] && (s.head.Sleep? ==> s.tail == Sleep && |s.chain| == 1)
    requires |s.chain| == 1 ==> s.head == s.tail
    ensures WakeOk(Win(s, t, s.pushes[t].node, s.head))
  {
  }

  lemma HeadFacts(s: State)
    requires ChainOk(s) && MarkersOk(s)
    ensures s.head != Null && (s.tail != Sleep ==> s.head != Sleep && Sleep !in s.chain)
    ensures s.head == Sleep ==> s.tail == Sleep && |s.chain| == 1
    ensures |s.chain| == 1 ==> s.head == s.tail
  {
    assert s.head in s.chain;
  }

  lemma WinMarkers(s: State, t: Thread)
    requires ChainOk(s) && MarkersOk(s) && t in s.pushes && s.pushes[t].Try? && PushOk(s, t) && !s.head.Closed?
    ensures MarkersOk(Win(s, t, s.pushes[t].node, s.head))
  {
    HeadFacts(s);
  }

  lemma WinCons(s: State, t: Thread)
    requires PushesOk(s) && ConsOk(s) && t in s.pushes && s.pushes[t].Try?
    ensures ConsOk(Win(s, t, s.pushes[t].node, s.head))
  {
    assert PushOk(s, t);
  }

  lemma WinInv(s: State, t: Thread)
    requires Inv(s) && t in s.pushes && s.pushes[t].Try? && s.head == s.pushes[t].prev && !s.head.Closed?
    ensures Inv(Win(s, t, s.pushes[t].node, s.head))
  {
    var n := s.pushes[t].node;
    assert PushOk(s, t);
    HeadFacts(s);
    WinChain(s, t);
    WinMarkers(s, t);
    WinPushes(s, t);
    WinWake(s, t);
    IdsAppend(s.chain, n);
    WinCons(s, t);
  }

  lemma PushCons(s: State, t: Thread)
    requires PushesOk(s) && ConsOk(s) && t in s.pushes && ChainOk(s) && MarkersOk(s)
    requires s.pushes[t].Try? ==> s.head != s.pushes[t].prev || s.pushes[t].prev.Closed?
    ensures ConsOk(StepPush(s, t))
  {
    assert PushOk(s, t);
    PushNext(s, t);
    PushKeeps(s, t);
    hide ChainOk, MarkersOk, PushesOk, PushOk, NextOf, StepPush;
  }

  /** No push touches the markers' links but the one that owes the marker's link. */
  lemma PushNext(s: State, t: Thread)
    requires t in s.pushes && PushOk(s, t) && ChainOk(s) && MarkersOk(s)
    requires s.pushes[t].Try? ==> s.head != s.pushes[t].prev || s.pushes[t].prev.Closed?
    ensures s.tail == Sleep && NextOf(s, End) == Null ==> NextOf(StepPush(s, t), End) == Null
    ensures s.tail == End && NextOf(s, Sleep) == Null ==> NextOf(StepPush(s, t), Sleep) == Null
  {
  }

  lemma PushKeeps(s: State, t: Thread)
    requires t in s.pushes
    requires s.pushes[t].Try? ==> s.head != s.pushes[t].prev || s.pushes[t].prev.Closed?
    ensures var s' := StepPush(s, t);
            && s'.tail == s.tail && s'.cons == s.cons && s'.out == s.out
            && t in s'.pushes && s'.pushes[t].node == s.pushes[t].node
            && s'.pushes == s.pushes[t := s'.pushes[t]]
  {
  }

  lemma QuietPushInv(s: State, t: Thread)
    requires Inv(s) && t in s.pushes && (s.pushes[t].Clear? || s.pushes[t].Load? || s.pushes[t].Try?)
    requires s.pushes[t].Try? ==> s.head != s.pushes[t].prev || s.pushes[t].prev.Closed?
    ensures Inv(StepPush(s, t))
  {
    assert PushOk(s, t);
    PushCons(s, t);
    PushChain(s, t);
    HeadFacts(s);
    if s.pushes[t].Clear? {
      ClearPushes(s, t);
    } else if s.pushes[t].Try? && s.pushes[t].prev.Closed? {
      RejectPushes(s, t);
    } else {
      LoadPushes(s, t);
    }
    PushWake(s, t);
  }

  lemma LinkInv(s: State, t: Thread)
    requires Inv(s) && t in s.pushes && s.pushes[t].Link?
    ensures Inv(StepPush(s, t))
  {
    assert PushOk(s, t);
    PushCons(s, t);
    LinkChain(s, t);
    LinkPushes(s, t);
    PushWake(s, t);
  }

  /** Every atomic operation of `enqueue_node`, by any thread, keeps the invariant. */
  lemma PushInv(s: State, t: Thread)
    requires Inv(s) && t in s.pushes
    ensures Inv(StepPush(s, t))
  {
    var p := s.pushes[t];
    if p.Link? {
      LinkInv(s, t);
    } else if p.Try? && s.head == p.prev && !p.prev.Closed? {
      WinInv(s, t);
    } else if Owes(p) {
      QuietPushInv(s, t);
    }
  }

  lemma {:induction false} IdsAppend(c: seq<Ptr>, p: Ptr)
    ensures Ids(c + [p]) == Ids(c) + IdOf(p)
  {
    if c == [] {
    } else {
      assert (c + [p])[1..] == c[1..] + [p];
      IdsAppend(c[1..], p);
    }
  }

  /** `enqueue_node` has returned to `t`. */
  predicate CanFinish(s: State, t: Thread) {
    t in s.pushes && (s.pushes[t].Pushed? || s.pushes[t].Rejected?) && (t == Consumer ==> !s.cons.DeqPushEnd?)
  }

  lemma FinishChain(s: State, t: Thread)
    requires ChainOk(s) && t in s.pushes && !s.pushes[t].Link?
    ensures ChainOk(Finish(s, t))
  {
    var s' := Finish(s, t);
    forall i | 0 <= i < |s'.chain| - 1 ensures LinkOk(s', i) { assert LinkOk(s, i); }
  }

  lemma FinishPushes(s: State, t: Thread)
    requires PushesOk(s) && t in s.pushes
    ensures PushesOk(Finish(s, t))
  {
    var s' := Finish(s, t);
    forall u | u in s'.pushes ensures PushOk(s', u) { assert PushOk(s, u); }
  }

  lemma FinishWake(s: State, t: Thread)
    requires WakeOk(s) && PushesOk(s) && t in s.pushes && (s.pushes[t].Pushed? || s.pushes[t].Rejected?)
    ensures WakeOk(Finish(s, t))
  {
    assert forall u :: u in s.pushes ==> PushOk(s, u);
  }

  lemma FinishInv(s: State, t: Thread)
    requires Inv(s) && CanFinish(s, t)
    ensures Inv(Finish(s, t))
  {
    FinishChain(s, t);
    FinishPushes(s, t);
    FinishWake(s, t);
  }

  // ----- the consumer's steps -----

  /** A consumer step that changes only its program counter. */
  lemma LocalChain(s: State, c: Cons)
    requires ChainOk(s)
    ensures ChainOk(s.(cons := c))
  {
    forall i | 0 <= i < |s.chain| - 1 ensures LinkOk(s.(cons := c), i) { assert LinkOk(s, i); }
  }

  lemma LocalPushes(s: State, c: Cons)
    requires PushesOk(s) && Consumer !in s.pushes
    ensures PushesOk(s.(cons := c))
  {
    forall u | u in s.pushes ensures PushOk(s.(cons := c), u) { assert PushOk(s, u); }
  }

  lemma LocalInv(s: State, c: Cons)
    requires Inv(s) && Consumer !in s.pushes && ConsOk(s.(cons := c))
    ensures Inv(s.(cons := c))
  {
    hide ChainOk, PushesOk;
    LocalChain(s, c);
    LocalPushes(s, c);
    assert WakeOk(s.(cons := c));
  }

  /** The private tail may move on once its link is stored: the chain loses its first node. */
  lemma AdvanceChain(s: State)
    requires ChainOk(s) && NextOf(s, s.tail) != Null
    ensures |s.chain| > 1 && NextOf(s, s.tail) == s.chain[1] && s.tail !in s.owed
    ensures ChainOk(Advance(s, s.chain[1]))
  {
    assert LinkOk(s, 0);
    var s' := Advance(s, s.chain[1]);
    forall i | 0 <= i < |s'.chain| - 1 ensures LinkOk(s', i) { assert LinkOk(s, i + 1); }
    assert forall p :: p in s.chain && p != s.tail ==> p in s'.chain;
  }

  lemma AdvancePushes(s: State, to: Ptr, c: Cons)
    requires PushesOk(s) && Consumer !in s.pushes && s.chain != []
    ensures PushesOk(Advance(s, to).(cons := c))
  {
    var s' := Advance(s, to).(cons := c);
    forall u | u in s'.pushes ensures PushOk(s', u) { assert PushOk(s, u); }
  }

  lemma ChainNotEmpty(s: State)
    requires ChainOk(s)
    ensures s.chain != [] && s.chain[0] == s.tail
  {
  }

  /** Moving on over a marker, or taking the tail node. */
  lemma AdvanceInv(s: State, c: Cons, out: seq<nat>)
    requires Inv(s) && Consumer !in s.pushes && NextOf(s, s.tail) != Null
    requires out == s.out + IdOf(s.tail)
    requires ConsOk(Advance(s, NextOf(s, s.tail)).(cons := c, out := out))
    ensures Inv(Advance(s, NextOf(s, s.tail)).(cons := c, out := out))
  {
    var to := NextOf(s, s.tail);
    ChainNotEmpty(s);
    AdvanceChain(s);
    hide ChainOk, PushesOk, WakeOk;
    AdvancePushes(s, to, c);
    var a := Advance(s, to).(cons := c);
    LocalChain(Advance(s, to), c);
    OutKept(a, out);
    AdvanceWake(s, to, c, out);
  }

  lemma AdvanceWake(s: State, to: Ptr, c: Cons, out: seq<nat>)
    requires WakeOk(s) && MarkersOk(s) && ChainOk(s) && |s.chain| > 1 && to == s.chain[1]
    ensures WakeOk(Advance(s, to).(cons := c, out := out))
  {
  }

  lemma OutKept(s: State, out: seq<nat>)
    requires ChainOk(s) && PushesOk(s)
    ensures ChainOk(s.(out := out)) && PushesOk(s.(out := out))
  {
    var s' := s.(out := out);
    forall i | 0 <= i < |s.chain| - 1 ensures LinkOk(s', i) { assert LinkOk(s, i); }
    forall u | u in s.pushes ensures PushOk(s', u) { assert PushOk(s, u); }
  }

  lemma AfterNextInv(s: State, until: Ptr)
    requires Inv(s) && Consumer !in s.pushes && !s.tail.End? && !s.tail.Sleep?
    ensures Inv(AfterNext(s, until, NextOf(s, s.tail)))
  {
    if s.tail == until {
      LocalInv(s, GotDequeued(Empty));
    } else if NextOf(s, s.tail) != Null {
      TakeInv(s);
    } else {
      LocalInv(s, DeqHead);
    }
  }

  lemma TakeInv(s: State)
    requires Inv(s) && Consumer !in s.pushes && !s.tail.End? && !s.tail.Sleep? && NextOf(s, s.tail) != Null
    ensures s.tail.Node? && Inv(Take(s, NextOf(s, s.tail)))
  {
    AdvanceChain(s);
    AdvanceInv(s, GotDequeued(Data(s.tail)), s.out + IdOf(s.tail));
  }

  lemma StartClearInv(s: State, deq: bool)
    requires Inv(s) && Consumer !in s.pushes
    ensures Inv(StartClear(s, deq))
  {
    hide ChainOk, PushesOk, WakeOk, FifoOk;
    LocalInv(s, StartClear(s, deq).cons);
  }

  lemma DeqInv(s: State)
    requires Inv(s) && s.cons.Deq? && Consumer !in s.pushes
    ensures Inv(StepCons(s))
  {
    var next := NextOf(s, s.tail);
    if !Marker(s.tail) {
      AfterNextInv(s, s.cons.until);
    } else if next == Null {
      StartClearInv(s, true);
    } else {
      AdvanceChain(s);
      SkipsToNode(s);
      AdvanceInv(s, DeqSkipped(s.cons.until), s.out);
    }
  }

  /** Behind a marker that can be skipped there is never another end or sleep marker. */
  lemma SkipsToNode(s: State)
    requires ChainOk(s) && MarkersOk(s) && Marker(s.tail) && |s.chain| > 1
    ensures s.chain[1] != End && s.chain[1] != Sleep
  {
  }

  /** Before the end marker is pushed the chain is the tail node alone. */
  lemma PushEndInv(s: State)
    requires Inv(s) && s.cons.DeqHead? && Consumer !in s.pushes && s.head == s.tail
    ensures Inv(StepCons(s))
  {
    assert s.chain == [s.tail];
    BeginEndPushes(s);
    BeginEndChain(s);
    BeginEndWake(s);
    hide ChainOk, PushesOk, WakeOk;
  }

  lemma BeginEndWake(s: State)
    requires WakeOk(s) && Consumer !in s.pushes
    ensures WakeOk(Begin(s, Consumer, End).(cons := DeqPushEnd))
  {
  }

  lemma BeginEndChain(s: State)
    requires ChainOk(s) && Consumer !in s.pushes && s.chain == [s.tail]
    ensures ChainOk(Begin(s, Consumer, End).(cons := DeqPushEnd))
  {
  }

  lemma BeginEndPushes(s: State)
    requires PushesOk(s) && s.cons.DeqHead? && Consumer !in s.pushes && s.chain == [s.tail]
    requires !s.tail.End? && !s.tail.Sleep?
    ensures PushesOk(Begin(s, Consumer, End).(cons := DeqPushEnd))
  {
    var s' := Begin(s, Consumer, End).(cons := DeqPushEnd);
    forall u | u in s'.pushes ensures PushOk(s', u) { if u != Consumer { assert PushOk(s, u); } }
  }

  lemma PushedEndInv(s: State)
    requires Inv(s) && s.cons.DeqPushEnd? && s.pushes[Consumer].Pushed?
    ensures Inv(StepCons(s))
  {
    assert PushOk(s, Consumer);
    FinishChain(s, Consumer);
    FinishPushes(s, Consumer);
    FinishWake(s, Consumer);
    hide ChainOk, PushesOk, WakeOk, PushOk;
    var f := Finish(s, Consumer);
    LocalChain(f, DeqAgain);
    LocalPushes(f, DeqAgain);
    LocalWake(f, DeqAgain);
  }

  lemma LocalWake(s: State, c: Cons)
    requires WakeOk(s)
    ensures WakeOk(s.(cons := c))
  {
  }

  /** The state after the only node of the chain, a marker, has become the marker `m`. */
  function Swapped(s: State, m: Ptr, epoch: nat, c: Cons): State {
    s.(head := m, tail := m, chain := [m], epoch := epoch, cons := c)
  }

  lemma SwapChain(s: State, m: Ptr, epoch: nat, c: Cons)
    requires ChainOk(s) && s.head == s.tail && m != Null && NextOf(s, m) == Null
    ensures ChainOk(Swapped(s, m, epoch, c))
  {
    assert s.chain == [s.tail];
    assert forall p :: p !in s.owed;
  }

  lemma SwapPushes(s: State, m: Ptr, epoch: nat, c: Cons)
    requires PushesOk(s) && Consumer !in s.pushes && (m.End? || m.Sleep?)
    ensures PushesOk(Swapped(s, m, epoch, c))
  {
    var s' := Swapped(s, m, epoch, c);
    forall u | u in s'.pushes ensures PushOk(s', u) { assert PushOk(s, u); }
  }

  lemma StoreNullOk(s: State, m: Ptr, c: Cons)
    requires ChainOk(s) && PushesOk(s) && Consumer !in s.pushes && (m.End? || m.Sleep?) && m !in s.chain
    ensures ChainOk(s.(next := s.next[m := Null], cons := c)) && PushesOk(s.(next := s.next[m := Null], cons := c))
  {
    var s' := s.(next := s.next[m := Null], cons := c);
    forall i | 0 <= i < |s'.chain| - 1 ensures LinkOk(s', i) { assert LinkOk(s, i); }
    forall u | u in s'.pushes ensures PushOk(s', u) { assert PushOk(s, u); }
  }

  /** A marker outside the chain gets its link cleared. */
  lemma StoreNullInv(s: State, m: Ptr, c: Cons)
    requires Inv(s) && Consumer !in s.pushes && (m.End? || m.Sleep?) && m !in s.chain
    requires ConsOk(s.(next := s.next[m := Null], cons := c))
    ensures Inv(s.(next := s.next[m := Null], cons := c))
  {
    StoreNullOk(s, m, c);
    assert WakeOk(s.(next := s.next[m := Null], cons := c));
  }

  lemma IdsOne(p: Ptr)
    ensures Ids([p]) == IdOf(p)
  {
    assert [p][1..] == [];
  }

  lemma SwapInv(s: State, m: Ptr, epoch: nat, c: Cons)
    requires Inv(s) && Consumer !in s.pushes && s.head == s.tail && Marker(s.tail) && (m.End? || m.Sleep?)
    requires NextOf(s, m) == Null && ConsOk(Swapped(s, m, epoch, c)) && WakeOk(Swapped(s, m, epoch, c))
    ensures Inv(Swapped(s, m, epoch, c))
  {
    SwapChain(s, m, epoch, c);
    SwapPushes(s, m, epoch, c);
    assert s.chain == [s.tail];
    IdsOne(s.tail);
    IdsOne(m);
    hide ChainOk, PushesOk, WakeOk, ConsOk;
  }

  lemma SwapWake(s: State, c: Cons)
    requires WakeOk(s)
    ensures s.head == Sleep ==> WakeOk(Swapped(s, End, s.epoch, c))
    ensures WakeOk(Swapped(s, Sleep, s.epoch + 1, c))
  {
  }

  lemma ClearCasInv(s: State)
    requires Inv(s) && s.cons.ClearCas? && Consumer !in s.pushes
    ensures Inv(StepCons(s))
  {
    hide ChainOk, PushesOk, WakeOk, FifoOk;
    if s.head == Sleep {
      SwapWake(s, ClearResult(s.cons.deq));
      SwapInv(s, End, s.epoch, ClearResult(s.cons.deq));
    } else {
      LocalInv(s, ClearResult(s.cons.deq));
    }
  }

  lemma PrepCasInv(s: State)
    requires Inv(s) && s.cons.PrepCas? && Consumer !in s.pushes
    ensures Inv(StepCons(s))
  {
    hide ChainOk, PushesOk, WakeOk, FifoOk;
    if s.head == End {
      SwapWake(s, GotPrepared(true));
      SwapInv(s, Sleep, s.epoch + 1, GotPrepared(true));
    } else {
      LocalInv(s, GotPrepared(false));
    }
  }

  /** Every atomic operation of the consumer keeps the invariant. */
  lemma ConsInv(s: State)
    requires Inv(s) && (Consumer !in s.pushes || s.cons.DeqPushEnd?)
    ensures Inv(StepCons(s))
  {
    match s.cons
    case Deq(_) => DeqInv(s);
    case DeqSkipped(until) => AfterNextInv(s, until);
    case DeqHead => if s.head == s.tail { PushEndInv(s); } else { LocalInv(s, GotDequeued(Inconsistent)); }
    case DeqPushEnd => if s.pushes[Consumer].Pushed? { PushedEndInv(s); }
    case DeqAgain => if NextOf(s, s.tail) != Null { TakeInv(s); } else { LocalInv(s, GotDequeued(Inconsistent)); }
    case ClearStore(deq) => StoreNullInv(s, End, ClearCas(deq));
    case ClearCas(_) => ClearCasInv(s);
    case PrepHead => LocalInv(s, GotPrepared(s.head == Sleep));
    case PrepStore => StoreNullInv(s, Sleep, PrepCas);
    case PrepCas => PrepCasInv(s);
    case _ =>
  }

  // ----- whole runs -----

  /** One step of the queue with everything that shares it. Entering `enqueue_node` is up to
      the callers, whose obligation is `CanBegin`. */
  datatype Step =
    | BeginPush(t: Thread, node: Ptr) | DoPush(t: Thread) | FinishPush(t: Thread)
    | BeginDequeue(until: Ptr) | BeginPrepare | BeginClear | DoCons | Return

  predicate Enabled(s: State, step: Step) {
    match step
    case BeginPush(t, node) => CanBegin(s, t, node)
    case DoPush(t) => t in s.pushes
    case FinishPush(t) => CanFinish(s, t)
    case DoCons => Consumer !in s.pushes || s.cons.DeqPushEnd?
    case Return => Returned(s)
    case _ => s.cons.Idle? && Consumer !in s.pushes
  }

  predicate Returned(s: State) { s.cons.GotDequeued? || s.cons.GotCleared? || s.cons.GotPrepared? }

  function Apply(s: State, step: Step): State
    requires Enabled(s, step)
  {
    match step
    case BeginPush(t, node) => Begin(s, t, node)
    case DoPush(t) => StepPush(s, t)
    case FinishPush(t) => Finish(s, t)
    case BeginDequeue(until) => StartDequeue(s, until)
    case BeginPrepare => StartPrepare(s)
    case BeginClear => StartClear(s, false)
    case DoCons => StepCons(s)
    case Return => s.(cons := Idle)
  }

  /** The consumer never pushes while an operation of its own is open. */
  lemma ReturnInv(s: State)
    requires Inv(s) && Returned(s)
    ensures Consumer !in s.pushes && Inv(s.(cons := Idle))
  {
    assert Consumer in s.pushes ==> PushOk(s, Consumer);
    LocalInv(s, Idle);
  }

  lemma StepInv(s: State, step: Step)
    requires Inv(s) && Enabled(s, step)
    ensures Inv(Apply(s, step))
  {
    match step
    case BeginPush(t, node) => BeginInv(s, t, node);
    case DoPush(t) => PushInv(s, t);
    case FinishPush(t) => FinishInv(s, t);
    case BeginDequeue(until) => LocalInv(s, Deq(until));
    case BeginPrepare => LocalInv(s, StartPrepare(s).cons);
    case BeginClear => StartClearInv(s, false);
    case DoCons => ConsInv(s);
    case Return => ReturnInv(s);
  }

  predicate IsRun(run: seq<State>, steps: seq<Step>) {
    && |run| == |steps| + 1
    && run[0] == Init()
    && (forall i :: 0 <= i < |steps| ==> Enabled(run[i], steps[i]) && run[i + 1] == Apply(run[i], steps[i]))
  }

  lemma {:induction false} RunInv(run: seq<State>, steps: seq<Step>, k: nat)
    requires IsRun(run, steps) && k < |run|
    ensures Inv(run[k])
  {
    if k == 0 {
      InitInv();
    } else {
      RunInv(run, steps, k - 1);
      StepInv(run[k - 1], steps[k - 1]);
    }
  }

  // ----- first in, first out -----

  /** In every reachable state the nodes dequeued so far, followed by the nodes still queued,
      are the nodes pushed so far in the order of their head CASes: none lost, none twice. */
  lemma DequeuedInPushOrder(run: seq<State>, steps: seq<Step>, k: nat)
    requires IsRun(run, steps) && k < |run|
    ensures run[k].log == run[k].out + Ids(run[k].chain)
    ensures Distinct(run[k].chain)
  {
    RunInv(run, steps, k);
  }

  lemma TakeIsOldest(s: State, next: Ptr)
    requires ChainOk(s) && FifoOk(s) && s.tail.Node?
    ensures var s' := Take(s, next);
            (|s.out| < |s.log| && s.tail.id == s.log[|s.out|] && s'.out == s.out + [s.tail.id] && s'.log == s.log
             && s.tail !in s'.chain)
  {
    assert Ids(s.chain) == [s.tail.id] + Ids(s.chain[1..]);
  }

  lemma LinkedTailIsNode(s: State)
    requires ChainOk(s) && MarkersOk(s) && !s.tail.End? && !s.tail.Sleep? && NextOf(s, s.tail) != Null
    ensures s.tail.Node?
  {
    AdvanceChain(s);
  }

  predicate HandsOut(c: Cons) { c.GotDequeued? && c.result.Data? }

  /** Handing out a node is `Take`: the tail, which is a registered node, leaves the chain. */
  lemma DataStep(s: State)
    requires ConsOk(s) && !s.cons.GotDequeued?
    ensures HandsOut(StepCons(s).cons) ==>
              !s.tail.End? && !s.tail.Sleep? && NextOf(s, s.tail) != Null && StepCons(s) == Take(s, NextOf(s, s.tail))
  {
    match s.cons
    case Deq(until) => if Marker(s.tail) {}
    case _ =>
  }

  /** What dequeue_node hands out is a registered node, never a marker, and it is the oldest
      one pushed that was not handed out before. */
  lemma DequeueTakesOldest(s: State)
    requires Inv(s) && (Consumer !in s.pushes || s.cons.DeqPushEnd?) && !s.cons.GotDequeued?
    requires HandsOut(StepCons(s).cons)
    ensures StepCons(s).cons.result.node.Node? && |s.out| < |s.log|
    ensures StepCons(s).cons.result.node.id == s.log[|s.out|]
    ensures StepCons(s).out == s.out + [s.log[|s.out|]] && StepCons(s).log == s.log
    ensures StepCons(s).cons.result.node !in StepCons(s).chain
  {
    DataStep(s);
    LinkedTailIsNode(s);
    TakeIsOldest(s, NextOf(s, s.tail));
  }

  // ----- no lost wakeup -----

  /** `prepare_for_sleep` returns true only when no node is queued, not even a half-pushed one,
      and nobody has been asked to wake this sleep. */
  lemma SleepsOnlyWhenEmpty(s: State)
    requires Inv(s) && (s.cons.PrepHead? || s.cons.PrepCas?) && Consumer !in s.pushes
    requires StepCons(s).cons == GotPrepared(true)
    ensures StepCons(s).chain == [Sleep] && StepCons(s).epoch !in StepCons(s).first
    ensures forall t :: t in StepCons(s).pushes ==> !StepCons(s).pushes[t].Link?
  {
    ConsInv(s);
    SleepingIsEmpty(StepCons(s));
  }

  lemma SleepingIsEmpty(s: State)
    requires ChainOk(s) && MarkersOk(s) && PushesOk(s) && WakeOk(s) && s.head == Sleep
    ensures s.chain == [Sleep] && s.epoch !in s.first
    ensures forall t :: t in s.pushes ==> !s.pushes[t].Link?
  {
    HeadFacts(s);
    forall t | t in s.pushes ensures !s.pushes[t].Link? { assert PushOk(s, t); }
  }

  /** A push reports that the awakener is needed exactly when it is the first one onto the
      sleep marker. */
  lemma FirstPushWakes(s: State, t: Thread)
    requires Inv(s) && t in s.pushes && s.pushes[t].Try? && s.head == s.pushes[t].prev && !s.head.Closed?
    ensures StepPush(s, t).pushes[t].Link?
    ensures StepPush(StepPush(s, t), t).pushes[t].wake <==> s.tail == Sleep && |s.chain| == 1
  {
    HeadFacts(s);
  }

  /** On the way to calling the awakener for epoch `e`. */
  predicate WakesFor(p: Push, e: nat) {
    (p.Link? && p.prev.Sleep? && p.sig == e) || (p.Pushed? && p.wake && p.sig == e)
  }

  /** The awakener was called for the present sleep, or a producer is on its way to calling it. */
  ghost predicate WakeComing(s: State) {
    s.epoch in s.called || exists t :: t in s.pushes && t.Producer? && WakesFor(s.pushes[t], s.epoch)
  }

  /** The consumer, closing the queue, was the first to push onto the sleep marker. */
  predicate ClosedAsleep(s: State) { s.epoch in s.first && s.first[s.epoch] == Consumer }

  /** While the sleep marker is in place: something was pushed after it exactly when the awakener
      was called for this sleep, or a producer is on its way to calling it, or the consumer itself
      has come back to close the queue. */
  lemma NoLostWakeup(run: seq<State>, steps: seq<Step>, k: nat)
    requires IsRun(run, steps) && k < |run| && run[k].tail == Sleep
    ensures |run[k].chain| > 1 <==> WakeComing(run[k]) || ClosedAsleep(run[k])
  {
    RunInv(run, steps, k);
    AsleepWakes(run[k]);
  }

  lemma AsleepWakes(s: State)
    requires ChainOk(s) && PushesOk(s) && WakeOk(s) && s.tail == Sleep
    ensures |s.chain| > 1 <==> WakeComing(s) || ClosedAsleep(s)
  {
    if t :| t in s.pushes && t.Producer? && WakesFor(s.pushes[t], s.epoch) {
      assert PushOk(s, t);
    }
    if s.epoch in s.first && s.first[s.epoch].Producer? && s.epoch !in s.called {
      assert OwesWake(s, s.epoch) && WakesFor(s.pushes[s.first[s.epoch]], s.epoch);
    }
  }

  /** No sleep is ended by two awakener calls. */
  lemma OneWakePerSleep(run: seq<State>, steps: seq<Step>, k: nat, t: Thread, u: Thread)
    requires IsRun(run, steps) && k < |run| && t in run[k].pushes && u in run[k].pushes
    requires run[k].pushes[t].Pushed? && run[k].pushes[t].wake && run[k].pushes[u].Pushed? && run[k].pushes[u].wake
    requires run[k].pushes[t].sig == run[k].pushes[u].sig
    ensures t == u && run[k].pushes[t].sig !in run[k].called
  {
    RunInv(run, steps, k);
    assert PushOk(run[k], t) && PushOk(run[k], u);
  }

  // ----- the drain at drop -----

  /** The drain of `drop` stops at the first `Empty`. Behind a marker that is right exactly when
      no push behind it still owes its link. */
  lemma EmptyExactlyWhenNothingHalfPushed(s: State, until: Ptr)
    requires Inv(s) && s.cons == Deq(until) && Marker(s.tail) && NextOf(s, s.tail) == Null
    ensures |s.chain| == 1 <==> forall t :: t in s.pushes && s.pushes[t].Link? ==> s.pushes[t].prev != s.tail
  {
    if |s.chain| > 1 {
      assert LinkOk(s, 0);
    }
    forall t | t in s.pushes && s.pushes[t].Link? ensures s.pushes[t].prev in s.owed { assert PushOk(s, t); }
  }

  lemma Extend(run: seq<State>, steps: seq<Step>, step: Step) returns (run': seq<State>, steps': seq<Step>)
    requires IsRun(run, steps) && Enabled(run[|run| - 1], step)
    ensures IsRun(run', steps') && run'[|run'| - 1] == Apply(run[|run| - 1], step)
  {
    run', steps' := run + [Apply(run[|run| - 1], step)], steps + [step];
  }

  /** A run in which a producer has won the head CAS and not yet stored its link. */
  lemma HalfPushed() returns (run: seq<State>, steps: seq<Step>)
    ensures IsRun(run, steps)
    ensures run[|run| - 1] == Win(Init().(next := map[Node(0) := Null]), Producer(0), Node(0), End)
  {
    run, steps := [Init()], [];
    run, steps := Extend(run, steps, BeginPush(Producer(0), Node(0)));
    run, steps := Extend(run, steps, DoPush(Producer(0)));
    run, steps := Extend(run, steps, DoPush(Producer(0)));
    run, steps := Extend(run, steps, DoPush(Producer(0)));
  }

  /** The consumer has pushed the closed marker behind that producer's node. */
  lemma ClosedPushed() returns (run: seq<State>, steps: seq<Step>)
    ensures IsRun(run, steps)
    ensures run[|run| - 1] == Win(Init().(next := map[Node(0) := Null]), Producer(0), Node(0), End).(
              head := Closed, chain := [End, Node(0), Closed], next := map[Node(0) := Null, Closed := Null],
              owed := map[End := Producer(0), Node(0) := Consumer],
              pushes := map[Producer(0) := Link(Node(0), End, 0), Consumer := Link(Closed, Node(0), 0)])
  {
    run, steps := HalfPushed();
    run, steps := Extend(run, steps, BeginPush(Consumer, Closed));
    run, steps := Extend(run, steps, DoPush(Consumer));
    run, steps := Extend(run, steps, DoPush(Consumer));
    run, steps := Extend(run, steps, DoPush(Consumer));
  }

  /** The consumer closes the queue behind that producer. */
  lemma ClosedBehind() returns (run: seq<State>, steps: seq<Step>)
    ensures IsRun(run, steps)
    ensures var s := run[|run| - 1];
            (s.cons.Idle? && s.tail == End && NextOf(s, End) == Null && s.chain == [End, Node(0), Closed]
             && Consumer !in s.pushes)
  {
    run, steps := ClosedPushed();
    run, steps := Extend(run, steps, DoPush(Consumer));
    run, steps := Extend(run, steps, FinishPush(Consumer));
  }

  /** Otherwise the drain misses nodes: a producer between its CAS and its link store makes
      dequeue_node report an empty queue with the node and the closed marker behind it. */
  lemma DrainCanMissANode() returns (run: seq<State>, steps: seq<Step>)
    ensures IsRun(run, steps)
    ensures run[|run| - 1].cons == GotDequeued(Empty) && run[|run| - 1].chain == [End, Node(0), Closed]
  {
    run, steps := ClosedBehind();
    run, steps := Extend(run, steps, BeginDequeue(Null));
    run, steps := Extend(run, steps, DoCons);
  }
}
