/** The lock word of `Poll::poll1`: a locked bit and a waiter count in one atomic, a mutex and
    a condition variable, for any number of threads calling `poll`. One step is one atomic
    operation; a timeout or a spurious wakeup may happen at any time. */
module PollLock {
  /** A thread inside `poll1`; `inc` says that it is counted as a waiter. */
  datatype Pc =
    | Fast                            // CAS the word from 0 to 1
    | Slow(curr: nat)                 // acquire the mutex
    | Loop(curr: nat, inc: bool)      // holds the mutex and has seen `curr`
    | Sleeping                        // inside condvar.wait
    | Awake                           // woken up, needs the mutex
    | Reload                          // holds the mutex, load the word
    | Inside                          // inside poll2
    | NotifyLock                      // released the word, needs the mutex to notify
    | Notify                          // holds the mutex, notify_one

  datatype Mutex = Free | HeldBy(t: nat)
  datatype State = State(word: nat, mutex: Mutex, pcs: map<nat, Pc>)

  /** `GiveUp` is the zero timeout; `NotifyOne` wakes the sleeper `u`, or nobody if none sleeps. */
  datatype Step =
    | Call(t: nat) | TryFast(t: nat) | LockSlow(t: nat) | Take(t: nat) | Register(t: nat) | GiveUp(t: nat)
    | Sleep(t: nat)
    | Wake(t: nat) | LockAwake(t: nat) | Load(t: nat) | Release(t: nat) | LockNotify(t: nat) | NotifyOne(t: nat, u: nat)

  function Init(): State { State(0, Free, map[]) }

  predicate Enabled(s: State, step: Step) {
    if step.Call? then step.t !in s.pcs
    else if step.t !in s.pcs then false
    else
      var pc := s.pcs[step.t];
      match step
      case TryFast(_) => pc.Fast?
      case LockSlow(_) => pc.Slow? && s.mutex.Free?
      case Take(_) => pc.Loop? && pc.curr % 2 == 0
      case Register(_) => pc.Loop? && pc.curr % 2 == 1 && !pc.inc
      case GiveUp(_) => pc.Loop? && pc.curr % 2 == 1
      case Sleep(_) => pc.Loop? && pc.curr % 2 == 1 && pc.inc
      case Wake(_) => pc.Sleeping?
      case LockAwake(_) => pc.Awake? && s.mutex.Free?
      case Load(_) => pc.Reload?
      case Release(_) => pc.Inside?
      case LockNotify(_) => pc.NotifyLock? && s.mutex.Free?
      case NotifyOne(_, u) => pc.Notify? && (Asleep(s, u) || forall v :: v in s.pcs ==> !s.pcs[v].Sleeping?)
      case Call(_) => false
  }

  predicate Asleep(s: State, u: nat) { u in s.pcs && s.pcs[u].Sleeping? }

  function Goto(s: State, t: nat, pc: Pc): State { s.(pcs := s.pcs[t := pc]) }
  function Leave(s: State, t: nat): State { s.(pcs := s.pcs - {t}) }
  function Minus2(w: nat): nat { if w < 2 then 0 else w - 2 }

  function Apply(s: State, step: Step): State
    requires Enabled(s, step)
  {
    var t := step.t;
    match step
    case Call(_) => Goto(s, t, Fast)
    case TryFast(_) => if s.word == 0 then Goto(s.(word := 1), t, Inside) else Goto(s, t, Slow(s.word))
    case LockSlow(_) => Goto(s.(mutex := HeldBy(t)), t, Loop(s.pcs[t].curr, false))
    case Take(_) =>
      var pc := s.pcs[t];
      var next := if pc.inc then Minus2(pc.curr + 1) else pc.curr + 1;
      if s.word == pc.curr then Goto(s.(word := next, mutex := Free), t, Inside)
      else Goto(s, t, Loop(s.word, pc.inc))
    case Register(_) =>
      var pc := s.pcs[t];
      if s.word == pc.curr then Goto(s.(word := s.word + 2), t, Loop(pc.curr, true))
      else Goto(s, t, Loop(s.word, false))
    case GiveUp(_) => Leave(s.(mutex := Free, word := if s.pcs[t].inc then Minus2(s.word) else s.word), t)
    case Sleep(_) => Goto(s.(mutex := Free), t, Sleeping)
    case Wake(_) => Goto(s, t, Awake)
    case LockAwake(_) => Goto(s.(mutex := HeldBy(t)), t, Reload)
    case Load(_) => Goto(s, t, Loop(s.word, true))
    case Release(_) =>
      var free := s.(word := s.word - s.word % 2);
      if s.word == 1 then Leave(free, t) else Goto(free, t, NotifyLock)
    case LockNotify(_) => Goto(s.(mutex := HeldBy(t)), t, Notify)
    case NotifyOne(_, u) =>
      var done := Leave(s.(mutex := Free), t);
      if Asleep(s, u) then Goto(done, u, Awake) else done
  }

  // ----- the inductive invariant -----

  predicate Counted(pc: Pc) { (pc.Loop? && pc.inc) || pc.Sleeping? || pc.Awake? || pc.Reload? }
  predicate Holding(pc: Pc) { pc.Loop? || pc.Reload? || pc.Notify? }

  function Insides(s: State): set<nat> { set t | t in s.pcs && s.pcs[t].Inside? }
  function Waiters(s: State): set<nat> { set t | t in s.pcs && Counted(s.pcs[t]) }

  /** The word is the locked bit plus twice the number of counted waiters. */
  predicate WordOk(s: State) {
    && s.word == |Insides(s)| + 2 * |Waiters(s)|
    && |Insides(s)| <= 1
  }

  predicate MutexOk(s: State) {
    && (forall t :: t in s.pcs ==> (Holding(s.pcs[t]) <==> s.mutex == HeldBy(t)))
    && (s.mutex.HeldBy? ==> s.mutex.t in s.pcs)
  }

  /** A thread that will notify a sleeper. */
  ghost predicate NotificationOwed(s: State) {
    exists t :: t in s.pcs && (s.pcs[t].NotifyLock? || s.pcs[t].Notify?)
  }

  /** A woken waiter that will look at the word again, or has seen it free. */
  predicate Retries(pc: Pc) { pc.Awake? || pc.Reload? || (pc.Loop? && pc.inc && pc.curr % 2 == 0) }

  ghost predicate SomeoneRetries(s: State) { exists t :: t in s.pcs && Retries(s.pcs[t]) }

  /** A counted waiter that saw the word locked and is about to sleep or give up. */
  predicate Late(pc: Pc) { pc.Loop? && pc.inc && pc.curr % 2 == 1 }

  ghost predicate SomeoneWasLate(s: State) { exists t :: t in s.pcs && Late(s.pcs[t]) }
  ghost predicate SomeoneSleeps(s: State) { exists t :: Asleep(s, t) }

  ghost predicate ProgressOk(s: State) {
    && (s.word % 2 == 0 && SomeoneSleeps(s) ==> NotificationOwed(s) || SomeoneRetries(s))
    && (s.word % 2 == 0 && SomeoneWasLate(s) ==> NotificationOwed(s))
  }

  ghost predicate Inv(s: State) { WordOk(s) && MutexOk(s) && ProgressOk(s) }

  // ----- the counts -----

  lemma CountGoto(s: State, t: nat, pc: Pc)
    ensures Insides(Goto(s, t, pc)) == if pc.Inside? then Insides(s) + {t} else Insides(s) - {t}
    ensures Waiters(Goto(s, t, pc)) == if Counted(pc) then Waiters(s) + {t} else Waiters(s) - {t}
  {
  }

  lemma CountLeave(s: State, t: nat)
    ensures Insides(Leave(s, t)) == Insides(s) - {t} && Waiters(Leave(s, t)) == Waiters(s) - {t}
  {
  }

  /** The odd word says that a thread is inside. */
  lemma OddMeansInside(s: State)
    requires WordOk(s)
    ensures s.word % 2 == |Insides(s)| && (s.word % 2 == 1 <==> Insides(s) != {})
    ensures forall t :: t in Waiters(s) ==> s.word >= 2
  {
    forall t | t in Waiters(s) ensures s.word >= 2 { assert |Waiters(s) - {t}| == |Waiters(s)| - 1; }
  }

  /** Taking the lock, from the fast path or from the loop, whether counted or not. */
  lemma TakeWord(s: State, t: nat, word: nat, mutex: Mutex)
    requires WordOk(s) && t in s.pcs && !s.pcs[t].Inside? && s.word % 2 == 0
    requires word == (if Counted(s.pcs[t]) then Minus2(s.word + 1) else s.word + 1)
    ensures WordOk(Goto(s.(word := word, mutex := mutex), t, Inside))
  {
    OddMeansInside(s);
    assert t in Waiters(s) <==> Counted(s.pcs[t]);
    CountGoto(s.(word := word, mutex := mutex), t, Inside);
  }

  lemma RegisterWord(s: State, t: nat, pc: Pc)
    requires WordOk(s) && t in s.pcs && !s.pcs[t].Inside? && !Counted(s.pcs[t]) && Counted(pc)
    ensures WordOk(Goto(s.(word := s.word + 2), t, pc))
  {
    CountGoto(s.(word := s.word + 2), t, pc);
  }

  lemma GiveUpWord(s: State, t: nat, mutex: Mutex)
    requires WordOk(s) && t in s.pcs && !s.pcs[t].Inside?
    ensures WordOk(Leave(s.(mutex := mutex, word := if Counted(s.pcs[t]) then Minus2(s.word) else s.word), t))
  {
    OddMeansInside(s);
    assert t in Waiters(s) <==> Counted(s.pcs[t]);
    CountLeave(s.(mutex := mutex, word := if Counted(s.pcs[t]) then Minus2(s.word) else s.word), t);
  }

  lemma ReleaseWord(s: State, t: nat)
    requires WordOk(s) && t in s.pcs && s.pcs[t].Inside?
    ensures s.word % 2 == 1 && (s.word == 1 <==> Waiters(s) == {})
    ensures WordOk(Leave(s.(word := s.word - 1), t)) && WordOk(Goto(s.(word := s.word - 1), t, NotifyLock))
  {
    assert t in Insides(s);
    OddMeansInside(s);
    CountLeave(s.(word := s.word - 1), t);
    CountGoto(s.(word := s.word - 1), t, NotifyLock);
    assert |Insides(s) - {t}| == |Insides(s)| - 1;
  }

  /** A step that neither enters nor leaves poll2 nor changes who is counted. */
  lemma QuietWord(s: State, t: nat, mutex: Mutex, pc: Pc)
    requires WordOk(s) && !pc.Inside? && (t in s.pcs ==> !s.pcs[t].Inside?)
    requires Counted(pc) <==> t in s.pcs && Counted(s.pcs[t])
    ensures WordOk(Goto(s.(mutex := mutex), t, pc))
  {
    CountGoto(s.(mutex := mutex), t, pc);
  }

  lemma NotifyWord(s: State, t: nat, u: nat)
    requires WordOk(s) && t in s.pcs && s.pcs[t].Notify?
    ensures WordOk(Leave(s.(mutex := Free), t))
    ensures Asleep(s, u) ==> WordOk(Goto(Leave(s.(mutex := Free), t), u, Awake))
  {
    CountLeave(s.(mutex := Free), t);
    if Asleep(s, u) { QuietWord(Leave(s.(mutex := Free), t), u, Free, Awake); }
  }

  lemma StepWord(s: State, step: Step)
    requires WordOk(s) && Enabled(s, step)
    ensures WordOk(Apply(s, step))
  {
    var t := step.t;
    match step
    case Call(_) => QuietWord(s, t, s.mutex, Fast);
    case TryFast(_) => if s.word == 0 { TakeWord(s, t, 1, s.mutex); } else { QuietWord(s, t, s.mutex, Slow(s.word)); }
    case LockSlow(_) => QuietWord(s, t, HeldBy(t), Loop(s.pcs[t].curr, false));
    case Take(_) =>
      var pc := s.pcs[t];
      if s.word == pc.curr {
        TakeWord(s, t, if pc.inc then Minus2(pc.curr + 1) else pc.curr + 1, Free);
      } else { QuietWord(s, t, s.mutex, Loop(s.word, pc.inc)); }
    case Register(_) =>
      var pc := s.pcs[t];
      if s.word == pc.curr {
        RegisterWord(s, t, Loop(pc.curr, true));
      } else {
        QuietWord(s, t, s.mutex, Loop(s.word, false));
      }
    case GiveUp(_) => GiveUpWord(s, t, Free);
    case Sleep(_) => QuietWord(s, t, Free, Sleeping);
    case Wake(_) => QuietWord(s, t, s.mutex, Awake);
    case LockAwake(_) => QuietWord(s, t, HeldBy(t), Reload);
    case Load(_) => QuietWord(s, t, s.mutex, Loop(s.word, true));
    case Release(_) => ReleaseWord(s, t);
    case LockNotify(_) => QuietWord(s, t, HeldBy(t), Notify);
    case NotifyOne(_, u) => NotifyWord(s, t, u);
  }

  lemma StepMutex(s: State, step: Step)
    requires MutexOk(s) && Enabled(s, step)
    ensures MutexOk(Apply(s, step))
  {
  }

  // ----- progress -----

  /** Thread `t` alone has moved on, the locked bit is as it was, and `t` has not stopped being
      someone others wait for, nor become someone who waits. */
  predicate Moved(s: State, s': State, t: nat) {
    && s'.word % 2 == s.word % 2
    && (forall u :: u in s.pcs && u != t ==> u in s'.pcs && s'.pcs[u] == s.pcs[u])
    && (forall u :: u in s'.pcs && u != t ==> u in s.pcs)
    && (t in s.pcs && (s.pcs[t].NotifyLock? || s.pcs[t].Notify?)
        ==> t in s'.pcs && (s'.pcs[t].NotifyLock? || s'.pcs[t].Notify?))
    && (t in s.pcs && Retries(s.pcs[t]) ==> t in s'.pcs && (Retries(s'.pcs[t]) || s.word % 2 == 1))
    && (t in s'.pcs && Late(s'.pcs[t]) ==> (t in s.pcs && Late(s.pcs[t])) || s.word % 2 == 1)
    && (t in s'.pcs && s'.pcs[t].Sleeping? ==> t in s.pcs && Late(s.pcs[t]))
  }

  lemma OwedStays(s: State, s': State, t: nat)
    requires NotificationOwed(s) && Moved(s, s', t)
    ensures NotificationOwed(s')
  {
    var u :| u in s.pcs && (s.pcs[u].NotifyLock? || s.pcs[u].Notify?);
    assert u in s'.pcs && (s'.pcs[u].NotifyLock? || s'.pcs[u].Notify?);
  }

  lemma MovedProgress(s: State, s': State, t: nat)
    requires ProgressOk(s) && Moved(s, s', t)
    ensures ProgressOk(s')
  {
    if s'.word % 2 == 0 {
      forall u | u in s'.pcs && Late(s'.pcs[u]) ensures u in s.pcs && Late(s.pcs[u]) {}
      forall u | Asleep(s', u) ensures Asleep(s, u) || (t in s.pcs && Late(s.pcs[t])) {}
      if NotificationOwed(s) {
        OwedStays(s, s', t);
      } else if SomeoneRetries(s) {
        var u :| u in s.pcs && Retries(s.pcs[u]);
        assert u in s'.pcs && Retries(s'.pcs[u]);
      }
    }
  }

  lemma ReleaseProgress(s: State, t: nat)
    requires WordOk(s) && t in s.pcs && s.pcs[t].Inside?
    ensures ProgressOk(Apply(s, Release(t)))
  {
    ReleaseWord(s, t);
    var s' := Apply(s, Release(t));
    if s.word == 1 {
      forall u | u in s'.pcs ensures !Late(s'.pcs[u]) && !s'.pcs[u].Sleeping? { assert u !in Waiters(s); }
    } else {
      assert t in s'.pcs && s'.pcs[t].NotifyLock?;
    }
  }

  lemma NotifyProgress(s: State, t: nat, u: nat)
    requires MutexOk(s) && Enabled(s, NotifyOne(t, u))
    ensures ProgressOk(Apply(s, NotifyOne(t, u)))
  {
    var s' := Apply(s, NotifyOne(t, u));
    forall v | v in s'.pcs ensures !Late(s'.pcs[v]) { assert v in s.pcs && (v != t ==> !Holding(s.pcs[v])); }
    if Asleep(s, u) {
      assert u in s'.pcs && Retries(s'.pcs[u]);
    }
  }

  lemma StepProgress(s: State, step: Step)
    requires Inv(s) && Enabled(s, step)
    ensures ProgressOk(Apply(s, step))
  {
    var s' := Apply(s, step);
    var t := step.t;
    OddMeansInside(s);
    match step
    case TryFast(_) => if s.word != 0 { MovedProgress(s, s', t); }
    case Take(_) => if s.word != s.pcs[t].curr { MovedProgress(s, s', t); } else { TakesOdd(s, t); }
    case Register(_) => MovedProgress(s, s', t);
    case GiveUp(_) => GiveUpParity(s, t); MovedProgress(s, s', t);
    case Wake(_) => assert t in s'.pcs && Retries(s'.pcs[t]); MovedProgress(s, s', t);
    case Release(_) => ReleaseProgress(s, t);
    case NotifyOne(_, u) => NotifyProgress(s, t, u);
    case _ => MovedProgress(s, s', t);
  }

  lemma TakesOdd(s: State, t: nat)
    requires WordOk(s) && Enabled(s, Take(t)) && s.word == s.pcs[t].curr
    ensures Apply(s, Take(t)).word % 2 == 1
  {
    OddMeansInside(s);
    assert s.pcs[t].inc ==> t in Waiters(s);
  }

  lemma GiveUpParity(s: State, t: nat)
    requires WordOk(s) && Enabled(s, GiveUp(t))
    ensures Apply(s, GiveUp(t)).word % 2 == s.word % 2
  {
    OddMeansInside(s);
    assert s.pcs[t].inc ==> t in Waiters(s);
  }

  lemma StepInv(s: State, step: Step)
    requires Inv(s) && Enabled(s, step)
    ensures Inv(Apply(s, step))
  {
    StepWord(s, step);
    StepMutex(s, step);
    StepProgress(s, step);
  }

  // ----- whole runs -----

  predicate IsRun(run: seq<State>, steps: seq<Step>) {
    && |run| == |steps| + 1
    && run[0] == Init()
    && (forall i :: 0 <= i < |steps| ==> Enabled(run[i], steps[i]) && run[i + 1] == Apply(run[i], steps[i]))
  }

  lemma {:induction false} RunInv(run: seq<State>, steps: seq<Step>, k: nat)
    requires IsRun(run, steps) && k < |run|
    ensures Inv(run[k])
  {
    if k == 0 {
      assert Insides(Init()) == {} && Waiters(Init()) == {};
    } else {
      RunInv(run, steps, k - 1);
      StepInv(run[k - 1], steps[k - 1]);
    }
  }

  /** In every interleaving the lock word is 1 if a thread is inside `poll2`, else 0, plus twice
      the number of waiters, and at most one thread is inside. */
  lemma LockWordCounts(run: seq<State>, steps: seq<Step>, k: nat)
    requires IsRun(run, steps) && k < |run|
    ensures run[k].word == (if Insides(run[k]) != {} then 1 else 0) + 2 * |Waiters(run[k])|
    ensures forall t, u :: t in run[k].pcs && u in run[k].pcs && run[k].pcs[t].Inside? && run[k].pcs[u].Inside? ==>
              t == u
  {
    RunInv(run, steps, k);
    OddMeansInside(run[k]);
    forall t, u | t in run[k].pcs && u in run[k].pcs && run[k].pcs[t].Inside? && run[k].pcs[u].Inside? ensures t == u {
      assert t in Insides(run[k]) && u in Insides(run[k]);
      assert |Insides(run[k]) - {t}| == |Insides(run[k])| - 1;
    }
  }

  /** A free lock with sleeping waiters is never forgotten: a notification is owed, or a woken
      waiter is about to try again. */
  lemma NoSleeperIsForgotten(run: seq<State>, steps: seq<Step>, k: nat, t: nat)
    requires IsRun(run, steps) && k < |run| && Insides(run[k]) == {} && Asleep(run[k], t)
    ensures NotificationOwed(run[k]) || SomeoneRetries(run[k])
  {
    RunInv(run, steps, k);
    OddMeansInside(run[k]);
  }

  // ----- what the calls come to -----

  function AllOf(s: State, steps: seq<Step>): (s': State)
    requires Possible(s, steps)
    decreases |steps|
  {
    if steps == [] then s else AllOf(Apply(s, steps[0]), steps[1..])
  }

  predicate Possible(s: State, steps: seq<Step>)
    decreases |steps|
  {
    steps == [] || (Enabled(s, steps[0]) && Possible(Apply(s, steps[0]), steps[1..]))
  }

  lemma OneMore(s: State, step: Step, steps: seq<Step>)
    requires Enabled(s, step) && Possible(Apply(s, step), steps)
    ensures Possible(s, [step] + steps) && AllOf(s, [step] + steps) == AllOf(Apply(s, step), steps)
  {
    assert ([step] + steps)[1..] == steps;
  }

  /** A thread in the slow path that finds nobody inside gets in. */
  lemma TakesAlone(s: State, t: nat) returns (steps: seq<Step>)
    requires t in s.pcs && s.pcs[t] == Slow(s.word) && s.word % 2 == 0 && s.mutex == Free
    ensures steps == [LockSlow(t), Take(t)] && Possible(s, steps)
    ensures AllOf(s, steps) == s.(pcs := s.pcs[t := Inside], word := s.word + 1)
  {
    var s1 := Apply(s, LockSlow(t));
    var s2 := Apply(s1, Take(t));
    OneMore(s1, Take(t), []);
    OneMore(s, LockSlow(t), [Take(t)]);
    steps := [LockSlow(t), Take(t)];
    assert steps == [LockSlow(t)] + [Take(t)] && [Take(t)] == [Take(t)] + [];
    assert s2.pcs == s.pcs[t := Inside];
  }

  /** A thread that calls `poll` while nobody is inside, and that nobody disturbs, gets in. */
  lemma EntersAlone(s: State, t: nat) returns (steps: seq<Step>)
    requires Inv(s) && t !in s.pcs && Insides(s) == {} && s.mutex == Free
    ensures |steps| <= 4 && (forall i :: 0 <= i < |steps| ==> steps[i].t == t) && Possible(s, steps)
    ensures AllOf(s, steps) == s.(pcs := s.pcs[t := Inside], word := s.word + 1)
  {
    OddMeansInside(s);
    hide Inv, Insides;
    var s1 := Apply(s, Call(t));
    var s2 := Apply(s1, TryFast(t));
    var rest := [];
    if s.word != 0 { rest := TakesAlone(s2, t); }
    OneMore(s1, TryFast(t), rest);
    OneMore(s, Call(t), [TryFast(t)] + rest);
    steps := [Call(t)] + ([TryFast(t)] + rest);
    assert AllOf(s, steps).pcs == s.pcs[t := Inside];
  }

  /** While somebody is inside, it is counted as a waiter and falls asleep. */
  lemma WaitsForOccupant(s: State, t: nat) returns (steps: seq<Step>)
    requires Inv(s) && t !in s.pcs && Insides(s) != {} && s.mutex == Free
    ensures steps == [Call(t), TryFast(t), LockSlow(t), Register(t), Sleep(t)] && Possible(s, steps)
    ensures AllOf(s, steps) == s.(pcs := s.pcs[t := Sleeping], word := s.word + 2)
  {
    OddMeansInside(s);
    hide Inv, Insides;
    var s1 := Apply(s, Call(t));
    var s2 := Apply(s1, TryFast(t));
    var s3 := Apply(s2, LockSlow(t));
    var s4 := Apply(s3, Register(t));
    assert s4.pcs[t] == Loop(s.word, true);
    OneMore(s4, Sleep(t), []);
    OneMore(s3, Register(t), [Sleep(t)] + []);
    OneMore(s2, LockSlow(t), [Register(t)] + ([Sleep(t)] + []));
    OneMore(s1, TryFast(t), [LockSlow(t)] + ([Register(t)] + ([Sleep(t)] + [])));
    OneMore(s, Call(t), [TryFast(t)] + ([LockSlow(t)] + ([Register(t)] + ([Sleep(t)] + []))));
    steps := [Call(t)] + ([TryFast(t)] + ([LockSlow(t)] + ([Register(t)] + ([Sleep(t)] + []))));
    assert AllOf(s, steps).pcs == s.pcs[t := Sleeping];
  }

  /** A woken waiter that finds nobody inside gets in, and is no waiter any more. */
  lemma RetriesAlone(s: State, u: nat) returns (steps: seq<Step>)
    requires u in s.pcs && s.pcs[u].Awake? && s.word % 2 == 0 && s.mutex == Free
    ensures steps == [LockAwake(u), Load(u), Take(u)] && Possible(s, steps)
    ensures AllOf(s, steps) == s.(pcs := s.pcs[u := Inside], word := Minus2(s.word + 1))
  {
    var s1 := Apply(s, LockAwake(u));
    var s2 := Apply(s1, Load(u));
    OneMore(s2, Take(u), []);
    OneMore(s1, Load(u), [Take(u)] + []);
    OneMore(s, LockAwake(u), [Load(u)] + ([Take(u)] + []));
    steps := [LockAwake(u)] + ([Load(u)] + ([Take(u)] + []));
    assert AllOf(s, steps).pcs == s.pcs[u := Inside];
  }

  lemma LeavesOccupied(s: State, t: nat, u: nat)
    requires Inv(s) && t in s.pcs && s.pcs[t].Inside? && Asleep(s, u)
    ensures s.word % 2 == 1 && s.word > 2
  {
    OddMeansInside(s);
    assert t in Insides(s) && u in Waiters(s);
  }

  /** A thread that leaves hands the lock over to a sleeper: after its notification that one gets in. */
  lemma HandsOver(s: State, t: nat, u: nat) returns (steps: seq<Step>)
    requires Inv(s) && t in s.pcs && s.pcs[t].Inside? && Asleep(s, u) && s.mutex == Free
    ensures steps == [Release(t), LockNotify(t), NotifyOne(t, u), LockAwake(u), Load(u), Take(u)] && Possible(s, steps)
    ensures AllOf(s, steps) == s.(pcs := (s.pcs - {t})[u := Inside], word := Minus2(s.word))
  {
    LeavesOccupied(s, t, u);
    hide Inv;
    var s1 := Apply(s, Release(t));
    var s2 := Apply(s1, LockNotify(t));
    var s3 := Apply(s2, NotifyOne(t, u));
    var rest := RetriesAlone(s3, u);
    assert s3.pcs[u := Inside] == (s.pcs - {t})[u := Inside];
    hide Apply;
    OneMore(s2, NotifyOne(t, u), rest);
    OneMore(s1, LockNotify(t), [NotifyOne(t, u)] + rest);
    OneMore(s, Release(t), [LockNotify(t)] + ([NotifyOne(t, u)] + rest));
    steps := [Release(t)] + ([LockNotify(t)] + ([NotifyOne(t, u)] + rest));
  }
}
