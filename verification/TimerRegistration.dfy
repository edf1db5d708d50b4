/** Registering a timer: the wheel's next tick, whatever the wheel is doing at that moment, is what
    the wakeup thread is started with. */
module TimerRegistration {
  import opened TimerWheel
  import TimerWakeup

  function Ticks<T>(w: View<T>): map<nat, nat> { map t | t in w.entries :: w.entries[t].links.tick }

  lemma NextTickInRange<T>(w: View<T>)
    requires w.Ok() && w.InRange()
    ensures 0 < w.NextTick() <= TimerWakeup.NEVER && TimerWakeup.TicksOk(Ticks(w))
    ensures NoneBefore(w.Abs(), w.NextTick()) <==> forall t :: t in Ticks(w) ==> w.NextTick() <= Ticks(w)[t]
  {
    hide View.Bounds, View.Due, View.Ordered;
    LeastIsEnough(w);
  }

  /** For every state of the wheel: registering the timer can lose the wakeup of some timeout
      exactly when a timeout that the walk of the current slot has not passed yet is earlier than
      every cached tick. */
  lemma RegisteringLosesExactlyWhenOverlooking<T>(w: View<T>)
    requires w.Ok() && w.InRange()
    ensures TimerWakeup.Loses(Ticks(w), w.NextTick()) <==> w.Overlooks()
  {
    hide View.Bounds, View.Due, View.Ordered, View.Overlooks, TimerWakeup.Loses;
    NextTickInRange(w);
    NextTickCovers(w);
    TimerWakeup.RegistrationLosesExactlyBelow(Ticks(w), w.NextTick());
  }

  /** What a caller can check: when the last poll has delivered nothing, registering loses nothing. */
  lemma RegisteringAfterAnEmptyPollIsSafe<T>(w: View<T>)
    requires w.Ok() && w.InRange() && !w.walking
    ensures !TimerWakeup.Loses(Ticks(w), w.NextTick())
  {
    NextTickCovers(w);
    RegisteringLosesExactlyWhenOverlooking(w);
  }

  // ---- A registration in the middle of a walk ----

  /** A new wheel with one slot. */
  function New(): View<int> { View(map[], [WheelEntry(TICK_MAX, EMPTY)], 0, EMPTY, [[]], map[], 0, 0, false) }

  /** A timeout set for tick 1. */
  function One(): View<int> {
    View(map[0 := Entry(10, Links(1, EMPTY, EMPTY))], [WheelEntry(1, 0)], 0, EMPTY, [[0]], map[0 := 0], 1, 1, false)
  }

  /** A second one for the same tick. */
  function Two(): View<int> {
    View(map[0 := Entry(10, Links(1, 1, EMPTY)), 1 := Entry(20, Links(1, EMPTY, 0))], [WheelEntry(1, 1)], 0, EMPTY,
         [[1, 0]], map[0 := 0, 1 := 1], 2, 2, false)
  }

  /** A poll has delivered the second one. */
  function Rest(): View<int> {
    View(map[0 := Entry(10, Links(1, EMPTY, EMPTY))], [WheelEntry(TICK_MAX, 0)], 1, 0, [[0]], map[0 := 0], 2, 0, true)
  }

  lemma NewOk()
    ensures New().Ok() && New().InRange()
  {
  }

  lemma SetsOne()
    ensures Inserts(New(), One(), 0, 1, 10, 0) && One().Ok()
  {
    hide View.Bounds, View.Due, View.Ordered, View.Aged;
    NewOk();
    assert [0] + New().lists[0] == One().lists[0];
    assert New().lists[0 := [0] + New().lists[0]] == One().lists;
    assert One().wheel == New().wheel[0 := WheelEntry(1, 0)];
    InsertsOk(New(), One(), 0, 1, 10, 0);
  }

  lemma SetsTwo()
    ensures Inserts(One(), Two(), 1, 1, 20, 0) && Two().Ok()
  {
    hide View.Bounds, View.Due, View.Ordered, View.Aged;
    SetsOne();
    assert [1] + One().lists[0] == Two().lists[0];
    assert One().lists[0 := [1] + One().lists[0]] == Two().lists;
    assert Two().wheel == One().wheel[0 := WheelEntry(1, 1)];
    assert Two().entries == Prepended(One().entries, 1, 1, 20, 0);
    assert Two().born == One().born[1 := 1];
    InsertsOk(One(), Two(), 1, 1, 20, 0);
  }

  /** The poll moves on to tick 1 and enters its slot, which forgets the cached tick. */
  function Walking(): View<int> {
    Two().(tick := 1, next := 1, at := 0, walking := true, wheel := [WheelEntry(TICK_MAX, 1)])
  }

  lemma Walks()
    ensures Walking() == Entered(Ticked(Two(), 0), 0) && Walking().Ok()
  {
    hide View.Bounds, View.Due, View.Ordered, View.Aged, View.Spells;
    SetsTwo();
    TicksOk(Two(), Ticked(Two(), 0), 0);
    EntersOk(Ticked(Two(), 0), Entered(Ticked(Two(), 0), 0), 0);
    assert [WheelEntry(1, 1)][0 := WheelEntry(TICK_MAX, 1)] == [WheelEntry(TICK_MAX, 1)];
  }

  lemma DeliversOne()
    ensures Removes(Walking(), Rest(), 1, 0, 0) && Rest().Ok() && Rest().InRange()
  {
    hide View.Bounds, View.Due, View.Ordered, View.Aged;
    Walks();
    assert Rest().entries == Relinked(Walking().entries, Walking().entries[1].links) - {1};
    assert Rest().wheel == Beheaded(Walking().wheel, 0, Walking().entries[1].links);
    assert Without(Walking().lists[0], 0) == Rest().lists[0];
    assert Rest().lists == Walking().lists[0 := Without(Walking().lists[0], 0)];
    assert Rest().born == Walking().born - {1};
    RemovesOk(Walking(), Rest(), 1, 0, 0);
  }

  /** Two timeouts for tick 1, a poll that delivers one of them, then the registration: the slot's
      cached tick has been forgotten, so nothing is scheduled for the other, which is due. */
  lemma RegisteringInTheMiddleExample()
    ensures Inserts(New(), One(), 0, 1, 10, 0) && Inserts(One(), Two(), 1, 1, 20, 0)
    ensures Walking() == Entered(Ticked(Two(), 0), 0) && Removes(Walking(), Rest(), 1, 0, 0)
    ensures Ticks(Rest()) == map[0 := 1] && Rest().tick == 1 && Rest().NextTick() == TICK_MAX
    ensures TimerWakeup.Loses(Ticks(Rest()), Rest().NextTick())
  {
    hide View.Ok, View.InRange, Inserts, Removes, TimerWakeup.Loses;
    SetsOne();
    SetsTwo();
    Walks();
    DeliversOne();
    assert Rest().wheel == [WheelEntry(TICK_MAX, 0)] && Least(Rest().wheel) == TICK_MAX;
    var cur := Rest().Slot();
    assert cur == 0 && Rest().at == 0 && Rest().TickOf(Rest().lists[cur][0]) < Least(Rest().wheel);
    RegisteringLosesExactlyWhenOverlooking(Rest());
  }
}
