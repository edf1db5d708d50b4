/** The timer and its wakeup thread: a shared wakeup tick lowered by the timer and taken by the
    thread, which then sets the readiness. One step per access to the shared state. */
module TimerWakeup {
  const NEVER: nat := 0xFFFF_FFFF_FFFF_FFFF
  const TERMINATE_THREAD: nat := 0

  /** Where the owner of the timer is. */
  datatype Owner =
    | Unregistered
    | Idle
    | Rescheduling             // a poll found nothing, readiness has been unset
    | Loading(tick: nat)       // `schedule_readiness(tick)`, before its first load
    | Scheduling(tick: nat, curr: nat)
    | Unparking                // has lowered the wakeup tick

  /** Where the wakeup thread is. */
  datatype Thread =
    | Reloading                // unparked or timed out, before the load
    | Checking(sleepUntil: nat)
    | Parked(sleepUntil: nat)
    | Waking                   // has taken the wakeup tick, readiness not set yet
    | Terminated

  /** `live` maps the keys of the timeouts to their ticks, `token` is the thread's unpark token.
      `floor` is the earliest tick scheduled since the registration or, once a poll has delivered
      nothing, 0. */
  datatype State = State(live: map<nat, nat>, wakeup: nat, readable: bool, token: bool, owner: Owner, thread: Thread,
                         floor: nat)

  datatype Step =
    | Register(tick: nat)
    | Insert(key: nat, tick: nat)
    | Remove(key: nat)
    | PollNone
    | Reschedule(tick: nat)
    | Load
    | LowerWakeup(spurious: bool)
    | Unpark
    | ThreadLoad
    | ThreadCheck(now: nat, spurious: bool)
    | ThreadSetReadable
    | ThreadWake

  predicate Enabled(s: State, step: Step) {
    match step
    // whatever the next tick is at that moment, the wheel may be in the middle of a slot
    case Register(tick) => s.owner == Unregistered && 0 < tick <= NEVER
    case Insert(key, tick) => s.owner == Idle && key !in s.live && 0 < tick <= NEVER
    case Remove(key) => s.owner == Idle && key in s.live
    case PollNone => s.owner == Idle
    // the next tick is a lower bound after such a poll, see `TimerWheel.Timer.NextTick`
    case Reschedule(tick) =>
      s.owner == Rescheduling && 0 < tick <= NEVER && forall k :: k in s.live ==> tick <= s.live[k]
    case Load => s.owner.Loading?
    case LowerWakeup(_) => s.owner.Scheduling?
    case Unpark => s.owner == Unparking
    case ThreadLoad => s.thread == Reloading && s.owner != Unregistered
    case ThreadCheck(_, _) => s.thread.Checking?
    case ThreadSetReadable => s.thread == Waking
    case ThreadWake => s.thread.Parked?  // unparked, timed out or spuriously
  }

  function Apply(s: State, step: Step): State
    requires Enabled(s, step)
  {
    match step
    case Register(tick) => s.(owner := Loading(tick), floor := tick)
    case Insert(key, tick) =>
      s.(live := s.live[key := tick], owner := Loading(tick), floor := if tick < s.floor then tick else s.floor)
    case Remove(key) => s.(live := s.live - {key})
    case PollNone => s.(readable := false, owner := Rescheduling, floor := 0)
    case Reschedule(tick) => s.(owner := Loading(tick))
    case Load => s.(owner := Scheduling(s.owner.tick, s.wakeup))
    case LowerWakeup(spurious) =>
      if s.owner.curr <= s.owner.tick then s.(owner := Idle)
      else if s.wakeup == s.owner.curr && !spurious then s.(wakeup := s.owner.tick, owner := Unparking)
      else s.(owner := s.owner.(curr := s.wakeup))
    case Unpark => s.(token := true, owner := Idle)
    case ThreadLoad => s.(thread := Checking(s.wakeup))
    case ThreadCheck(now, spurious) =>
      if s.thread.sleepUntil == TERMINATE_THREAD then s.(thread := Terminated)
      else if now < s.thread.sleepUntil then s.(thread := Parked(s.thread.sleepUntil))
      else if s.wakeup == s.thread.sleepUntil && !spurious then s.(wakeup := NEVER, thread := Waking)
      else s.(thread := Checking(s.wakeup))
    case ThreadSetReadable => s.(readable := true, thread := Checking(NEVER))
    case ThreadWake => s.(token := false, thread := Reloading)
  }

  predicate TicksOk(live: map<nat, nat>) { forall k :: k in live ==> 0 < live[k] <= NEVER }

  /** The timer with its `live` timeouts before it is registered. */
  function Start(live: map<nat, nat>): State { State(live, NEVER, false, false, Unregistered, Reloading, 0) }

  ghost predicate Inv(s: State) { Positive(s) && Covers(s) && Loaded(s) && Parks(s) }

  /** The wakeup tick is never the value that terminates the thread. */
  predicate Positive(s: State) {
    && 0 < s.wakeup <= NEVER && s.thread != Terminated
    && TicksOk(s.live)
    && (s.owner.Loading? || s.owner.Scheduling? ==> 0 < s.owner.tick <= NEVER)
    && (s.owner.Scheduling? ==> 0 < s.owner.curr <= NEVER)
    && (s.thread.Checking? || s.thread.Parked? ==> 0 < s.thread.sleepUntil <= NEVER)
  }

  predicate Signalled(s: State) { s.readable || s.thread == Waking }

  /** Every timeout from the floor on has a wakeup no later than its tick, or one is being
      scheduled. */
  ghost predicate Covers(s: State) {
    s.owner != Rescheduling && s.owner != Unregistered && !Signalled(s) ==>
      forall k :: k in s.live && s.floor <= s.live[k] ==>
        s.wakeup <= s.live[k] || ((s.owner.Loading? || s.owner.Scheduling?) && s.owner.tick <= s.live[k])
  }

  /** Only a registered timer has a thread that does anything, and a scheduling owner has loaded the
      wakeup tick as it is. */
  predicate Loaded(s: State) {
    && (s.owner == Unregistered ==> s.thread == Reloading && s.wakeup == NEVER && !s.readable)
    && (s.owner.Scheduling? && !Signalled(s) ==> s.owner.curr == s.wakeup)
  }

  predicate Notified(s: State) { s.token || s.owner == Unparking }

  /** A thread that would sleep past the wakeup tick is unparked. */
  predicate Parks(s: State) {
    && (s.thread.Checking? || s.thread.Parked? ==> s.thread.sleepUntil <= s.wakeup || Notified(s))
    && (s.thread == Waking ==> s.wakeup == NEVER || Notified(s))
  }

  lemma StartInv(live: map<nat, nat>)
    requires TicksOk(live)
    ensures Inv(Start(live))
  {
  }

  lemma StepCovers(s: State, step: Step)
    requires Enabled(s, step) && Positive(s) && Covers(s) && Loaded(s)
    ensures Covers(Apply(s, step)) && Positive(Apply(s, step))
  {
  }

  lemma StepParks(s: State, step: Step)
    requires Enabled(s, step) && Positive(s) && Loaded(s) && Parks(s)
    ensures Loaded(Apply(s, step)) && Parks(Apply(s, step))
  {
  }

  lemma StepInv(s: State, step: Step)
    requires Inv(s) && Enabled(s, step)
    ensures Inv(Apply(s, step))
  {
    StepCovers(s, step);
    StepParks(s, step);
  }

  /** A run of a timer that is registered, with the next tick `tick`, while `live` timeouts are in. */
  ghost predicate IsRun(ss: seq<State>, steps: seq<Step>, live: map<nat, nat>, tick: nat) {
    && TicksOk(live) && 0 < |steps| && steps[0] == Register(tick)
    && |ss| == |steps| + 1 && ss[0] == Start(live)
    && forall i :: 0 <= i < |steps| ==> Enabled(ss[i], steps[i]) && ss[i + 1] == Apply(ss[i], steps[i])
  }

  lemma {:induction false} RunInv(ss: seq<State>, steps: seq<Step>, live: map<nat, nat>, tick: nat, i: nat)
    requires IsRun(ss, steps, live, tick) && i < |ss|
    ensures Inv(ss[i])
  {
    if i == 0 {
      StartInv(live);
    } else {
      RunInv(ss, steps, live, tick, i - 1);
      StepInv(ss[i - 1], steps[i - 1]);
    }
  }

  /** The thread is parked beyond the tick of the timeout `key`, and nobody is about to wake it or
      to tell that the timer is readable. */
  predicate SleepsThrough(s: State, key: nat) {
    && s.owner == Idle && s.thread.Parked? && !s.token && !s.readable
    && key in s.live && s.live[key] < s.thread.sleepUntil
  }

  /** In every interleaving, whatever the wheel was doing when the timer was registered: only a
      timeout before the floor can be slept through. */
  lemma OnlyBelowFloorSleptThrough(ss: seq<State>, steps: seq<Step>, live: map<nat, nat>, tick: nat, i: nat, key: nat)
    requires IsRun(ss, steps, live, tick) && i < |ss| && key in ss[i].live && ss[i].floor <= ss[i].live[key]
    ensures !SleepsThrough(ss[i], key)
  {
    RunInv(ss, steps, live, tick, i);
  }

  lemma {:induction false} RegisteredOnce(ss: seq<State>, steps: seq<Step>, live: map<nat, nat>, tick: nat, i: nat)
    requires IsRun(ss, steps, live, tick) && 0 < i < |ss|
    ensures ss[i].owner != Unregistered
  {
    if i == 1 {
      assert ss[1] == Apply(ss[0], steps[0]);
    } else {
      RegisteredOnce(ss, steps, live, tick, i - 1);
    }
  }

  lemma FloorStaysAtZero(s: State, step: Step)
    requires Enabled(s, step) && s.owner != Unregistered && (s.floor == 0 || step == PollNone)
    ensures Apply(s, step).floor == 0
  {
  }

  lemma {:induction false} PollNoneDropsFloor(ss: seq<State>, steps: seq<Step>, live: map<nat, nat>, tick: nat,
                                              p: nat, i: nat)
    requires IsRun(ss, steps, live, tick) && p < i < |ss| && steps[p] == PollNone
    ensures ss[i].floor == 0
    decreases i
  {
    hide Enabled, Apply;
    if i > 1 {
      RegisteredOnce(ss, steps, live, tick, i - 1);
      if p < i - 1 {
        PollNoneDropsFloor(ss, steps, live, tick, p, i - 1);
      }
      FloorStaysAtZero(ss[i - 1], steps[i - 1]);
    }
  }

  /** Once some poll has delivered nothing, no timeout is slept through any more, however the timer
      was registered. */
  lemma PollNoneHeals(ss: seq<State>, steps: seq<Step>, live: map<nat, nat>, tick: nat, p: nat, i: nat, key: nat)
    requires IsRun(ss, steps, live, tick) && p < i < |ss| && steps[p] == PollNone
    ensures !SleepsThrough(ss[i], key)
  {
    hide IsRun;
    PollNoneDropsFloor(ss, steps, live, tick, p, i);
    if key in ss[i].live { OnlyBelowFloorSleptThrough(ss, steps, live, tick, i, key); }
  }

  predicate FloorOk(s: State) { forall k :: k in s.live ==> s.floor <= s.live[k] }

  lemma {:induction false} FloorStaysBelow(ss: seq<State>, steps: seq<Step>, live: map<nat, nat>, tick: nat, i: nat)
    requires IsRun(ss, steps, live, tick) && i < |ss| && forall k :: k in live ==> tick <= live[k]
    ensures FloorOk(ss[i])
  {
    if i == 1 {
      assert ss[1] == Apply(ss[0], steps[0]);
    } else if i > 1 {
      RegisteredOnce(ss, steps, live, tick, i - 1);
      FloorStaysBelow(ss, steps, live, tick, i - 1);
    }
  }

  /** Registering `live` timeouts with the next tick `tick` can lose a wakeup. */
  ghost predicate Loses(live: map<nat, nat>, tick: nat) {
    exists ss, steps, i: nat, key {:trigger IsRun(ss, steps, live, tick), SleepsThrough(ss[i], key)} ::
      IsRun(ss, steps, live, tick) && i < |ss| && SleepsThrough(ss[i], key)
  }

  /** Registering loses no wakeup, in any interleaving and through all that happens later, exactly
      when the next tick it schedules is no later than any timeout that is live by then. */
  lemma RegistrationLosesExactlyBelow(live: map<nat, nat>, tick: nat)
    requires TicksOk(live) && 0 < tick <= NEVER
    ensures Loses(live, tick) <==> exists k :: k in live && live[k] < tick
  {
    if k :| k in live && live[k] < tick {
      var ss, steps := SleptThrough(live, tick, k);
      assert SleepsThrough(ss[|steps|], k);
    }
    if Loses(live, tick) && !exists k :: k in live && live[k] < tick {
      var ss, steps, i: nat, key :| IsRun(ss, steps, live, tick) && i < |ss| && SleepsThrough(ss[i], key);
      FloorStaysBelow(ss, steps, live, tick, i);
      OnlyBelowFloorSleptThrough(ss, steps, live, tick, i, key);
    }
  }

  lemma Extend(ss: seq<State>, steps: seq<Step>, live: map<nat, nat>, tick: nat, step: Step)
    returns (ss': seq<State>, steps': seq<Step>)
    requires IsRun(ss, steps, live, tick) && Enabled(ss[|steps|], step)
    ensures IsRun(ss', steps', live, tick) && |ss'| == |ss| + 1 && ss'[|steps'|] == Apply(ss[|steps|], step)
  {
    ss', steps' := ss + [Apply(ss[|steps|], step)], steps + [step];
  }

  /** The wakeup for the next tick has been scheduled and nobody has parked yet. */
  lemma Scheduled(live: map<nat, nat>, tick: nat) returns (ss: seq<State>, steps: seq<Step>)
    requires TicksOk(live) && 0 < tick <= NEVER
    ensures IsRun(ss, steps, live, tick)
    ensures ss[|steps|] == State(live, tick, false, tick < NEVER, Idle, Reloading, tick)
  {
    var s0 := Start(live);
    ss, steps := [s0, Apply(s0, Register(tick))], [Register(tick)];
    ss, steps := Extend(ss, steps, live, tick, Load);
    ss, steps := Extend(ss, steps, live, tick, LowerWakeup(false));
    if tick < NEVER {
      ss, steps := Extend(ss, steps, live, tick, Unpark);
    }
  }

  /** Before the next tick the thread parks until then, past any earlier timeout. */
  lemma SleptThrough(live: map<nat, nat>, tick: nat, key: nat) returns (ss: seq<State>, steps: seq<Step>)
    requires TicksOk(live) && 0 < tick <= NEVER && key in live && live[key] < tick
    ensures IsRun(ss, steps, live, tick) && SleepsThrough(ss[|steps|], key)
  {
    ss, steps := Scheduled(live, tick);
    ss, steps := Extend(ss, steps, live, tick, ThreadLoad);
    ss, steps := Extend(ss, steps, live, tick, ThreadCheck(live[key], false));
    if tick < NEVER {
      ss, steps := Extend(ss, steps, live, tick, ThreadWake);
      ss, steps := Extend(ss, steps, live, tick, ThreadLoad);
      ss, steps := Extend(ss, steps, live, tick, ThreadCheck(live[key], false));
    }
  }

  /** In every interleaving, scheduling a wakeup never terminates the thread. */
  lemma SchedulingNeverTerminates(ss: seq<State>, steps: seq<Step>, live: map<nat, nat>, tick: nat, i: nat)
    requires IsRun(ss, steps, live, tick) && i < |ss|
    ensures ss[i].wakeup != TERMINATE_THREAD && ss[i].thread != Terminated
  {
    RunInv(ss, steps, live, tick, i);
  }

  // ----- the thread and the owner alone -----

  /** The thread does its next step at the moment `now`, if it does not sleep. */
  function ThreadAlone(s: State, now: nat): State {
    match s.thread
    case Reloading => if s.owner == Unregistered then s else Apply(s, ThreadLoad)
    case Checking(_) => Apply(s, ThreadCheck(now, false))
    case Parked(sleepUntil) => if s.token || sleepUntil <= now then Apply(s, ThreadWake) else s
    case Waking => Apply(s, ThreadSetReadable)
    case Terminated => s
  }

  function ThreadFor(s: State, now: nat, k: nat): State
    decreases k
  {
    if k == 0 then s else ThreadFor(ThreadAlone(s, now), now, k - 1)
  }

  lemma WakesOnTime(s: State, now: nat) returns (k: nat)
    requires Positive(s) && s.owner == Idle && (s.thread == Waking || s.wakeup <= now) && !s.readable
    requires s.thread == Reloading || s.thread == Waking || s.thread == Checking(s.wakeup)
    ensures k <= 3 && ThreadFor(s, now, k).readable
  {
    var s1 := ThreadAlone(s, now);
    var s2 := ThreadAlone(s1, now);
    var s3 := ThreadAlone(s2, now);
    assert ThreadFor(s, now, 3) == ThreadFor(s1, now, 2) == ThreadFor(s2, now, 1) == ThreadFor(s3, now, 0);
    assert ThreadFor(s, now, 2) == ThreadFor(s1, now, 1) == ThreadFor(s2, now, 0);
    assert ThreadFor(s, now, 1) == ThreadFor(s1, now, 0);
    k := if s.thread == Waking then 1 else if s.thread == Reloading then 3 else 2;
  }

  lemma {:induction false} ThreadGoesOn(s: State, now: nat, k: nat)
    ensures ThreadFor(s, now, k + 1) == ThreadFor(ThreadAlone(s, now), now, k)
  {
  }

  /** Once a timeout is due, and its wakeup not lost, the thread makes the timer readable within five
      steps. */
  lemma DueTimeoutWakes(s: State, now: nat, key: nat) returns (k: nat)
    requires Inv(s) && s.owner == Idle && key in s.live && s.floor <= s.live[key] <= now
    ensures k <= 5 && ThreadFor(s, now, k).readable
  {
    if s.readable {
      k := 0;
    } else if s.thread.Checking? && s.thread.sleepUntil != s.wakeup {
      var s1 := ThreadAlone(s, now);
      if s1.thread.Parked? {
        var s2 := ThreadAlone(s1, now);
        var j := WakesOnTime(s2, now);
        k := j + 2;
        ThreadGoesOn(s1, now, j);
        ThreadGoesOn(s, now, j + 1);
      } else {
        var j := WakesOnTime(s1, now);
        k := j + 1;
        ThreadGoesOn(s, now, j);
      }
    } else if s.thread.Parked? {
      var j := WakesOnTime(ThreadAlone(s, now), now);
      k := j + 1;
      ThreadGoesOn(s, now, j);
    } else {
      k := WakesOnTime(s, now);
    }
  }

  /** `schedule_readiness` that nobody disturbs leaves the earlier of the two ticks, and unparks the
      thread exactly if that is a new one. */
  lemma SchedulesAlone(s: State)
    requires s.owner.Loading?
    ensures var s1 := Apply(s, Load);
            var s2 := Apply(s1, LowerWakeup(false));
            var s' := if s2.owner == Unparking then Apply(s2, Unpark) else s2;
            s' == s.(owner := Idle, wakeup := if s.owner.tick < s.wakeup then s.owner.tick else s.wakeup,
                     token := s.token || s.owner.tick < s.wakeup)
  {
  }

  /** The step schedules a wakeup for `tick`. */
  predicate Schedules(step: Step, tick: nat) {
    (step.Register? || step.Insert? || step.Reschedule?) && step.tick == tick
  }

  ghost predicate WasScheduled(steps: seq<Step>, i: nat, tick: nat)
    requires i <= |steps|
  {
    tick == NEVER || exists j :: 0 <= j < i && Schedules(steps[j], tick)
  }

  /** Where the wakeup tick and the tick being scheduled come from. */
  lemma TicksMove(s: State, step: Step)
    requires Enabled(s, step)
    ensures var s' := Apply(s, step);
            && (s'.wakeup == s.wakeup || s'.wakeup == NEVER || (s.owner.Scheduling? && s'.wakeup == s.owner.tick))
            && (s'.owner.Loading? || s'.owner.Scheduling? ==>
                  || Schedules(step, s'.owner.tick)
                  || ((s.owner.Loading? || s.owner.Scheduling?) && s'.owner.tick == s.owner.tick))
  {
  }

  lemma SignalledBy(s: State, step: Step)
    requires Enabled(s, step) && Signalled(Apply(s, step)) && !Signalled(s)
    ensures step.ThreadCheck? && s.wakeup <= step.now
  {
  }

  lemma ScheduledStill(steps: seq<Step>, i: nat, tick: nat)
    requires i < |steps| && (WasScheduled(steps, i, tick) || Schedules(steps[i], tick))
    ensures WasScheduled(steps, i + 1, tick)
  {
  }

  lemma {:induction false} WakeupWasScheduled(ss: seq<State>, steps: seq<Step>, live: map<nat, nat>, tick: nat, i: nat)
    requires IsRun(ss, steps, live, tick) && i < |ss|
    ensures WasScheduled(steps, i, ss[i].wakeup)
    ensures ss[i].owner.Loading? || ss[i].owner.Scheduling? ==> WasScheduled(steps, i, ss[i].owner.tick)
  {
    hide Enabled, Apply, WasScheduled, Schedules;
    if i > 0 {
      WakeupWasScheduled(ss, steps, live, tick, i - 1);
      TicksMove(ss[i - 1], steps[i - 1]);
      ScheduledAtOnce(steps, i, ss[i].wakeup);
      if ss[i].wakeup != NEVER { ScheduledStill(steps, i - 1, ss[i].wakeup); }
      if ss[i].owner.Loading? || ss[i].owner.Scheduling? { ScheduledStill(steps, i - 1, ss[i].owner.tick); }
    } else {
      ScheduledAtOnce(steps, 0, NEVER);
    }
  }

  lemma ScheduledAtOnce(steps: seq<Step>, i: nat, tick: nat)
    requires i <= |steps|
    ensures tick == NEVER ==> WasScheduled(steps, i, tick)
  {
  }

  /** The timer is made readable only once a scheduled tick has come: the thread looked at the clock
      after that and found the tick in the wakeup. */
  lemma {:induction false} ReadableOnlyWhenDue(ss: seq<State>, steps: seq<Step>, live: map<nat, nat>, tick: nat, i: nat)
    returns (j: nat)
    requires IsRun(ss, steps, live, tick) && i < |ss| && Signalled(ss[i])
    ensures j < i && steps[j].ThreadCheck? && ss[j].wakeup <= steps[j].now && WasScheduled(steps, j, ss[j].wakeup)
  {
    hide Enabled, Apply, WasScheduled, Signalled;
    NotSignalledAtFirst(live);
    if Signalled(ss[i - 1]) {
      j := ReadableOnlyWhenDue(ss, steps, live, tick, i - 1);
    } else {
      SignalledBy(ss[i - 1], steps[i - 1]);
      WakeupWasScheduled(ss, steps, live, tick, i - 1);
      j := i - 1;
    }
  }

  lemma NotSignalledAtFirst(live: map<nat, nat>)
    ensures !Signalled(Start(live))
  {
  }
}
