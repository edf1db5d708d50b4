/** The readiness counter of the channel: many sender handles shared by any number of threads,
    one receiver, after registration has completed. One step is one atomic operation; the
    counter is a machine word and wraps. */
module ChannelReadiness {
  const WORD: int := 0x1_0000_0000_0000_0000
  const HALF: int := 0x4000_0000_0000_0000

  /** A thread inside `send` through handle `h`. */
  datatype Send =
    | Sent(h: nat)        // the message is in the channel, `inc` is due
    | OwesSet(h: nat)     // fetch_add returned 0, set_readiness(readable) is due

  /** The drop of the last sender handle. */
  datatype Last = NotYet | LastInc | LastSet | Closed

  /** The receiver inside `try_recv`. */
  datatype Recv =
    | Waiting
    | Took                     // has a message, load of the counter is due
    | UnsetDue                 // loaded 1, set_readiness(empty) is due
    | SubDue(unset: bool)      // fetch_sub is due
    | ResetDue                 // set_readiness(readable) is due again

  datatype State = State(pending: nat, senders: nat, readable: bool, queue: nat,
                         handles: set<nat>, sends: map<nat, Send>, last: Last, recv: Recv)

  datatype Step =
    | CloneHandle(h: nat, h': nat) | Push(t: nat, h: nat) | Inc(t: nat) | SetReadable(t: nat) | Drop(h: nat)
    | IncLast | SetLast | Take | LoadPending | Unset | Sub | Reset

  function Init(): State { State(0, 1, false, 0, {0}, map[], NotYet, Waiting) }

  /** fetch_add(1) and fetch_sub(1) on a machine word. */
  function Plus1(w: nat): nat { if w == WORD - 1 then 0 else w + 1 }
  function Minus1(w: nat): nat { if w == 0 then WORD - 1 else w - 1 }

  /** Memory holds fewer than 2^62 messages and as many threads. */
  predicate Enabled(s: State, step: Step) {
    match step
    case CloneHandle(h, h') => h in s.handles && h' !in s.handles && |s.handles| < HALF - 1
    case Push(t, h) => t !in s.sends && h in s.handles && s.queue < HALF - 1 && |s.sends| < HALF - 1
    case Inc(t) => t in s.sends && s.sends[t].Sent?
    case SetReadable(t) => t in s.sends && s.sends[t].OwesSet?
    case Drop(h) => h in s.handles && forall t :: t in s.sends ==> s.sends[t].h != h
    case IncLast => s.last.LastInc?
    case SetLast => s.last.LastSet?
    case Take => s.recv.Waiting? && s.queue > 0
    case LoadPending => s.recv.Took?
    case Unset => s.recv.UnsetDue?
    case Sub => s.recv.SubDue?
    case Reset => s.recv.ResetDue?
  }

  function Apply(s: State, step: Step): State
    requires Enabled(s, step)
  {
    match step
    case CloneHandle(_, h') => s.(senders := Plus1(s.senders), handles := s.handles + {h'})
    case Push(t, h) => s.(queue := s.queue + 1, sends := s.sends[t := Sent(h)])
    case Inc(t) =>
      var h := s.sends[t].h;
      s.(pending := Plus1(s.pending), sends := if s.pending == 0 then s.sends[t := OwesSet(h)] else s.sends - {t})
    case SetReadable(t) => s.(readable := true, sends := s.sends - {t})
    case Drop(h) =>
      s.(senders := Minus1(s.senders), handles := s.handles - {h}, last := if s.senders == 1 then LastInc else s.last)
    case IncLast => s.(pending := Plus1(s.pending), last := if s.pending == 0 then LastSet else Closed)
    case SetLast => s.(readable := true, last := Closed)
    case Take => s.(queue := s.queue - 1, recv := Took)
    case LoadPending => s.(recv := if s.pending == 1 then UnsetDue else SubDue(false))
    case Unset => s.(readable := false, recv := SubDue(true))
    case Sub => s.(pending := Minus1(s.pending), recv := if s.recv.unset && s.pending > 1 then ResetDue else Waiting)
    case Reset => s.(readable := true, recv := Waiting)
  }

  // ----- the inductive invariant -----

  /** The threads whose message is in the channel and not counted yet. */
  function Uncounted(sends: map<nat, Send>): set<nat> { set t | t in sends && sends[t].Sent? }

  /** The receiver has a message that is still counted. */
  predicate Owing(r: Recv) { r.Took? || r.UnsetDue? || r.SubDue? }

  /** What the counter stands for; it may go below zero because `send` precedes `inc`. */
  function Net(s: State): int {
    s.queue + (if Owing(s.recv) then 1 else 0) + (if s.last.LastSet? || s.last.Closed? then 1 else 0)
    - |Uncounted(s.sends)|
  }

  /** The machine word of a small number. */
  function Word(n: int): nat
    requires -WORD < n < WORD
  {
    if n < 0 then n + WORD else n
  }

  predicate CountOk(s: State) {
    && s.queue < HALF && |s.sends| < HALF
    && -HALF < Net(s) < HALF + 2
    && s.pending == Word(Net(s))
    && (s.recv.UnsetDue? || (s.recv.SubDue? && s.recv.unset) ==> Net(s) >= 1)
  }

  predicate HandlesOk(s: State) {
    && s.senders == |s.handles|
    && (forall t :: t in s.sends ==> s.sends[t].h in s.handles)
    && (s.handles == {} <==> !s.last.NotYet?)
    && |s.handles| < HALF
  }

  /** Someone is on the way to making the handle readable. */
  ghost predicate SetOwed(s: State) {
    || (exists t :: t in s.sends && s.sends[t].OwesSet?)
    || s.last.LastSet?
    || (s.recv.SubDue? && s.recv.unset) || s.recv.ResetDue?
  }

  ghost predicate ReadableOk(s: State) { Net(s) > 0 ==> s.readable || SetOwed(s) }

  ghost predicate Inv(s: State) { CountOk(s) && HandlesOk(s) && ReadableOk(s) }

  /** How each step moves the count. */
  function Delta(s: State, step: Step): int
    requires Enabled(s, step)
  {
    match step
    case Inc(_) => 1
    case IncLast => 1
    case Sub => -1
    case _ => 0
  }

  lemma UncountedPut(sends: map<nat, Send>, t: nat, h: nat)
    requires t !in sends
    ensures |Uncounted(sends[t := Sent(h)])| == |Uncounted(sends)| + 1
  {
    assert Uncounted(sends[t := Sent(h)]) == Uncounted(sends) + {t};
  }

  lemma PushNet(s: State, t: nat, h: nat)
    requires Enabled(s, Push(t, h))
    ensures Net(Apply(s, Push(t, h))) == Net(s)
  {
    UncountedPut(s.sends, t, h);
  }

  lemma IncNet(s: State, t: nat)
    requires Enabled(s, Inc(t))
    ensures Net(Apply(s, Inc(t))) == Net(s) + 1
  {
    assert t in Uncounted(s.sends) && Uncounted(Apply(s, Inc(t)).sends) == Uncounted(s.sends) - {t};
  }

  lemma StepNet(s: State, step: Step)
    requires Enabled(s, step) && (step.Drop? ==> s.last.NotYet?)
    ensures Net(Apply(s, step)) == Net(s) + Delta(s, step)
  {
    match step
    case Push(t, h) => PushNet(s, t, h);
    case Inc(t) => IncNet(s, t);
    case SetReadable(t) => assert Uncounted(Apply(s, step).sends) == Uncounted(s.sends);
    case _ =>
  }

  lemma Bounded(s: State)
    requires s.queue < HALF && |s.sends| < HALF
    ensures -HALF < Net(s) < HALF + 2
  {
    SubsetSize(Uncounted(s.sends), s.sends.Keys);
  }

  lemma SubsetSize(a: set<nat>, b: set<nat>)
    requires a <= b
    ensures |a| <= |b|
  {
    assert b == a + (b - a);
  }

  lemma StepCount(s: State, step: Step)
    requires CountOk(s) && Enabled(s, step) && (step.Drop? ==> s.last.NotYet?)
    ensures CountOk(Apply(s, step))
  {
    var s' := Apply(s, step);
    StepNet(s, step);
    assert s'.sends.Keys <= s.sends.Keys || step.Push?;
    if !step.Push? { SubsetSize(s'.sends.Keys, s.sends.Keys); }
    Bounded(s');
  }

  lemma StepHandles(s: State, step: Step)
    requires HandlesOk(s) && Enabled(s, step)
    ensures HandlesOk(Apply(s, step))
  {
    if step.Drop? { assert |s.handles - {step.h}| == |s.handles| - 1; }
  }

  /** The thread `t` that owes the set, if it has not just set it, still owes it. */
  lemma SetStaysOwed(s: State, s': State)
    requires SetOwed(s) && (forall t :: t in s.sends && s.sends[t].OwesSet? ==> t in s'.sends && s'.sends[t].OwesSet?)
    requires s.last.LastSet? ==> s'.last.LastSet?
    requires (s.recv.SubDue? && s.recv.unset) || s.recv.ResetDue?
             ==> (s'.recv.SubDue? && s'.recv.unset) || s'.recv.ResetDue?
    ensures SetOwed(s')
  {
    if t :| t in s.sends && s.sends[t].OwesSet? { assert t in s'.sends && s'.sends[t].OwesSet?; }
  }

  /** A counter that was zero makes its incrementer responsible. */
  lemma IncReadable(s: State, t: nat)
    requires CountOk(s) && ReadableOk(s) && Enabled(s, Inc(t))
    ensures ReadableOk(Apply(s, Inc(t)))
  {
    var s' := Apply(s, Inc(t));
    IncNet(s, t);
    if s.pending == 0 {
      assert t in s'.sends && s'.sends[t].OwesSet?;
    } else if SetOwed(s) {
      SetStaysOwed(s, s');
    }
  }

  lemma SubReadable(s: State)
    requires CountOk(s) && ReadableOk(s) && Enabled(s, Sub)
    ensures ReadableOk(Apply(s, Sub))
  {
    StepNet(s, Sub);
    if SetOwed(s) && !s.recv.unset { SetStaysOwed(s, Apply(s, Sub)); }
  }

  lemma StepReadable(s: State, step: Step)
    requires CountOk(s) && ReadableOk(s) && Enabled(s, step) && (step.Drop? ==> s.last.NotYet?)
    ensures ReadableOk(Apply(s, step))
  {
    var s' := Apply(s, step);
    StepNet(s, step);
    match step
    case Inc(t) => IncReadable(s, t);
    case Sub => SubReadable(s);
    case SetReadable(_) =>
    case SetLast =>
    case Unset =>
    case Reset =>
    case IncLast => if s.pending != 0 && SetOwed(s) { SetStaysOwed(s, s'); }
    case _ => if SetOwed(s) { SetStaysOwed(s, s'); }
  }

  lemma StepInv(s: State, step: Step)
    requires Inv(s) && Enabled(s, step)
    ensures Inv(Apply(s, step))
  {
    StepCount(s, step);
    StepHandles(s, step);
    StepReadable(s, step);
  }

  // ----- whole runs -----

  predicate IsRun(run: seq<State>, steps: seq<Step>) {
    && |run| == |steps| + 1
    && run[0] == Init()
    && (forall i :: 0 <= i < |steps| ==> Enabled(run[i], steps[i]) && run[i + 1] == Apply(run[i], steps[i]))
  }

  lemma {:induction false} RunInv(run: seq<State>, steps: seq<Step>, k: nat)
    requires IsRun(run, steps) && k < |run|
    ensures Inv(run[k])
  {
    if k == 0 {
      assert Uncounted(Init().sends) == {};
    } else {
      RunInv(run, steps, k - 1);
      StepInv(run[k - 1], steps[k - 1]);
    }
  }

  /** In every interleaving: when the counter says that something is pending, the handle is
      readable, or a sender still owes its set, or the receiver is between unset and re-set. */
  lemma PendingMeansReadable(run: seq<State>, steps: seq<Step>, k: nat)
    requires IsRun(run, steps) && k < |run| && 0 < run[k].pending < WORD / 2
    ensures run[k].readable || SetOwed(run[k])
  {
    RunInv(run, steps, k);
  }

  /** The word never misleads: it is the queued messages, plus one being received and one for
      the disconnection, minus the messages whose sender has not counted them yet. */
  lemma CounterIsConserved(run: seq<State>, steps: seq<Step>, k: nat)
    requires IsRun(run, steps) && k < |run|
    ensures -WORD < Net(run[k]) < WORD && run[k].pending == Word(Net(run[k]))
  {
    RunInv(run, steps, k);
  }

  /** After the last sender has dropped its handle and counted that, the counter stays at least
      one, so the disconnection stays visible. */
  lemma DisconnectionStaysVisible(run: seq<State>, steps: seq<Step>, k: nat)
    requires IsRun(run, steps) && k < |run| && run[k].handles == {} && !run[k].last.LastInc?
    ensures 1 <= run[k].pending < WORD / 2
    ensures run[k].readable || SetOwed(run[k])
  {
    RunInv(run, steps, k);
    assert Uncounted(run[k].sends) == {};
  }

  /** When nobody is in the middle of anything, a waiting message or a disconnected channel makes
      the handle readable: no wakeup is lost. */
  lemma QuietChannelIsReadable(run: seq<State>, steps: seq<Step>, k: nat)
    requires IsRun(run, steps) && k < |run| && run[k].sends == map[] && run[k].recv.Waiting?
    requires !run[k].last.LastInc? && !run[k].last.LastSet?
    ensures run[k].pending == run[k].queue + (if run[k].handles == {} then 1 else 0)
    ensures run[k].queue > 0 || run[k].handles == {} ==> run[k].readable
  {
    RunInv(run, steps, k);
    assert Uncounted(run[k].sends) == {};
  }

  // ----- undisturbed operations -----

  /** Nobody is in the middle of anything. */
  predicate Quiet(s: State) { s.sends == map[] && s.recv.Waiting? && !s.last.LastInc? && !s.last.LastSet? }

  /** What a quiet channel still has to tell. */
  predicate Pending(s: State) { s.queue > 0 || s.handles == {} }

  lemma QuietCount(s: State)
    requires Inv(s) && Quiet(s)
    ensures s.pending == s.queue + (if s.handles == {} then 1 else 0) && (Pending(s) ==> s.readable)
  {
    assert Uncounted(s.sends) == {};
  }

  /** A receive that nobody disturbs takes one message, and leaves the handle readable exactly if
      there is still something to tell: the last message of an open channel unsets it. */
  lemma ReceiveAlone(s: State) returns (steps: seq<Step>, run: seq<State>)
    requires Inv(s) && Quiet(s) && s.queue > 0
    ensures IsPath(s, run, steps) && steps != [] && steps[0] == Take
    ensures var s' := run[|steps|];
            && Quiet(s') && s'.queue == s.queue - 1 && s'.handles == s.handles
            && (s'.readable <==> Pending(s'))
  {
    QuietCount(s);
    var took := Apply(s, Take);
    var loaded := Apply(took, LoadPending);
    if s.pending == 1 {
      var unset := Apply(loaded, Unset);
      steps, run := [Take, LoadPending, Unset, Sub], [s, took, loaded, unset, Apply(unset, Sub)];
    } else {
      steps, run := [Take, LoadPending, Sub], [s, took, loaded, Apply(loaded, Sub)];
    }
  }

  /** A send that nobody disturbs leaves one message more, counted, and the handle readable. */
  lemma SendAlone(s: State, t: nat, h: nat) returns (steps: seq<Step>, run: seq<State>)
    requires Inv(s) && Quiet(s) && Enabled(s, Push(t, h))
    ensures IsPath(s, run, steps) && steps != [] && steps[0] == Push(t, h)
    ensures var s' := run[|steps|];
            Quiet(s') && s'.queue == s.queue + 1 && s'.pending == s.pending + 1 && s'.handles == s.handles
              && s'.readable
  {
    QuietCount(s);
    var pushed := Apply(s, Push(t, h));
    var counted := Apply(pushed, Inc(t));
    if s.pending == 0 {
      steps, run := [Push(t, h), Inc(t), SetReadable(t)], [s, pushed, counted, Apply(counted, SetReadable(t))];
    } else {
      steps, run := [Push(t, h), Inc(t)], [s, pushed, counted];
      assert pushed.sends - {t} == map[];
    }
  }

  /** Dropping the last handle, undisturbed, makes the handle readable. */
  lemma DropAlone(s: State, h: nat) returns (steps: seq<Step>, run: seq<State>)
    requires Inv(s) && Quiet(s) && s.handles == {h}
    ensures IsPath(s, run, steps) && steps != [] && steps[0] == Drop(h)
    ensures var s' := run[|steps|]; Quiet(s') && s'.queue == s.queue && s'.handles == {} && s'.readable
  {
    QuietCount(s);
    assert |s.handles| == 1 && s.handles - {h} == {};
    var dropped := Apply(s, Drop(h));
    var counted := Apply(dropped, IncLast);
    if s.pending == 0 {
      steps, run := [Drop(h), IncLast, SetLast], [s, dropped, counted, Apply(counted, SetLast)];
    } else {
      steps, run := [Drop(h), IncLast], [s, dropped, counted];
    }
  }

  predicate IsPath(s: State, run: seq<State>, steps: seq<Step>) {
    && |run| == |steps| + 1 && run[0] == s
    && (forall i :: 0 <= i < |steps| ==> Enabled(run[i], steps[i]) && run[i + 1] == Apply(run[i], steps[i]))
  }
}
