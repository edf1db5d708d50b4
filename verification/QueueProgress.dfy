/** What the queue's operations answer when no other thread steps in between, and what an operation
    of the consumer that answers inconsistently has met. */
module QueueProgress {
  import opened MpscQueue

  // ---- pushing alone ----

  function PushFor(s: State, t: Thread, k: nat): (s': State)
    requires t in s.pushes
    ensures t in s'.pushes
    decreases k
  {
    if k == 0 then s else PushFor(StepPush(s, t), t, k - 1)
  }

  /** A push that nobody disturbs is over after four operations: the node is the head, linked behind
      the previous one, and the push tells whether that was the sleep marker. */
  lemma PushGoesThrough(s: State, t: Thread)
    requires t in s.pushes && s.pushes[t].Clear? && s.head != Closed && s.head != s.pushes[t].node
    ensures var p, s' := s.pushes[t].node, PushFor(s, t, 4);
            && s'.head == p && s'.chain == s.chain + [p] && s'.log == s.log + IdOf(p)
            && s'.pushes == s.pushes[t := Pushed(p, s.head.Sleep?, s.epoch)]
            && NextOf(s', s.head) == p && NextOf(s', p) == Null
            && s'.tail == s.tail && s'.cons == s.cons && s'.out == s.out
  {
    var p := s.pushes[t].node;
    PushLoads(s, t);
    var s2 := PushFor(s, t, 2);
    hide StepPush, PushFor, NextOf, Inv;
    LastPut(s.pushes, t, Try(p, s.head), Pushed(p, s.head.Sleep?, s.epoch));
    ClearedNext(s, s2, p);
    PushWins(s2, t, p);
    PushAppend(s, t, 2, 2);
  }

  lemma LastPut(pushes: map<Thread, Push>, t: Thread, a: Push, b: Push)
    ensures pushes[t := a][t := b] == pushes[t := b]
  {
  }

  lemma ClearedNext(s: State, s': State, p: Ptr)
    requires s'.next == s.next[p := Null]
    ensures NextOf(s', p) == Null
  {
  }

  lemma {:induction false} PushAppend(s: State, t: Thread, j: nat, k: nat)
    requires t in s.pushes
    ensures PushFor(s, t, j + k) == PushFor(PushFor(s, t, j), t, k)
    decreases j
  {
    if j > 0 { PushAppend(StepPush(s, t), t, j - 1, k); }
  }

  /** The first two operations clear the node's link and load the head. */
  lemma PushLoads(s: State, t: Thread)
    requires t in s.pushes && s.pushes[t].Clear?
    ensures var p := s.pushes[t].node;
            PushFor(s, t, 2) == s.(next := s.next[p := Null], pushes := s.pushes[t := Try(p, s.head)])
  {
    var p := s.pushes[t].node;
    var s1 := StepPush(s, t);
    assert s1 == s.(next := s.next[p := Null], pushes := s.pushes[t := Load(p)]);
    assert s.pushes[t := Load(p)][t := Try(p, s.head)] == s.pushes[t := Try(p, s.head)];
    assert PushFor(s, t, 2) == PushFor(s1, t, 1) == PushFor(StepPush(s1, t), t, 0);
  }

  lemma PushWins(s: State, t: Thread, p: Ptr)
    requires t in s.pushes && s.pushes[t] == Try(p, s.head) && s.head != Closed && NextOf(s, p) == Null && s.head != p
    ensures var s' := PushFor(s, t, 2);
            && s'.head == p && s'.chain == s.chain + [p] && s'.log == s.log + IdOf(p)
            && s'.pushes == s.pushes[t := Pushed(p, s.head.Sleep?, s.epoch)]
            && NextOf(s', s.head) == p && NextOf(s', p) == Null
            && s'.tail == s.tail && s'.cons == s.cons && s'.out == s.out
  {
    var s1 := StepPush(s, t);
    assert s1 == Win(s, t, p, s.head) && s1.pushes[t] == Link(p, s.head, s.epoch);
    assert PushFor(s, t, 2) == PushFor(s1, t, 1) == PushFor(StepPush(s1, t), t, 0);
  }

  lemma TriesClosed(s: State, t: Thread, p: Ptr)
    requires t in s.pushes && s.pushes[t] == Try(p, Closed)
    ensures PushFor(s, t, 1) == s.(pushes := s.pushes[t := if p.End? then Pushed(p, false, 0) else Rejected(p)])
  {
    assert PushFor(s, t, 1) == PushFor(StepPush(s, t), t, 0);
  }

  /** A closed queue turns a node away after three operations, and pretends to take the end marker. */
  lemma PushIsTurnedAway(s: State, t: Thread)
    requires t in s.pushes && s.pushes[t].Clear? && s.head == Closed
    ensures var p, s' := s.pushes[t].node, PushFor(s, t, 3);
            && s' == s.(next := s.next[p := Null], pushes := s'.pushes)
            && s'.pushes == s.pushes[t := if p.End? then Pushed(p, false, 0) else Rejected(p)]
  {
    hide StepPush, PushFor;
    PushLoads(s, t);
    var p := s.pushes[t].node;
    TriesClosed(PushFor(s, t, 2), t, p);
    LastPut(s.pushes, t, Try(p, s.head), if p.End? then Pushed(p, false, 0) else Rejected(p));
    PushAppend(s, t, 2, 1);
  }

  // ---- the consumer alone ----

  /** The consumer inside an operation, its own push of the end marker included, does one atomic
      operation. */
  function Alone(s: State): State {
    if Consumer in s.pushes && !s.pushes[Consumer].Pushed? then StepPush(s, Consumer) else StepCons(s)
  }

  function AloneFor(s: State, k: nat): State
    decreases k
  {
    if k == 0 then s else AloneFor(Alone(s), k - 1)
  }

  lemma {:induction false} AloneAppend(s: State, j: nat, k: nat)
    ensures AloneFor(s, j + k) == AloneFor(AloneFor(s, j), k)
    decreases j
  {
    if j > 0 { AloneAppend(Alone(s), j - 1, k); }
  }

  lemma {:induction false} AlonePushes(s: State, k: nat)
    requires Consumer in s.pushes && forall i: nat :: i < k ==> !PushFor(s, Consumer, i).pushes[Consumer].Pushed?
    ensures AloneFor(s, k) == PushFor(s, Consumer, k)
    decreases k
  {
    if k > 0 {
      assert PushFor(s, Consumer, 0) == s;
      forall i: nat | i < k - 1 ensures !PushFor(Alone(s), Consumer, i).pushes[Consumer].Pushed? {
        assert PushFor(s, Consumer, i + 1) == PushFor(Alone(s), Consumer, i);
      }
      AlonePushes(Alone(s), k - 1);
    }
  }

  /** No push is between winning the head and storing its link. */
  predicate NothingHalfPushed(s: State) { forall t :: t in s.pushes ==> !s.pushes[t].Link? }

  lemma AllLinked(s: State, i: nat)
    requires ChainOk(s) && NothingHalfPushed(s) && i < |s.chain| - 1
    ensures NextOf(s, s.chain[i]) == s.chain[i + 1] && NextOf(s, s.chain[i]) != Null
  {
    assert LinkOk(s, i);
  }

  /** The oldest node in the chain is the first one, or the second behind a marker. */
  lemma OldestIs(s: State)
    requires ChainOk(s) && MarkersOk(s) && FifoOk(s) && Ids(s.chain) != []
    ensures |s.out| < |s.log|
    ensures s.tail.Node? ==> s.tail == Node(s.log[|s.out|])
    ensures !s.tail.Node? ==> |s.chain| > 1 && Marker(s.tail) && s.chain[1] == Node(s.log[|s.out|])
  {
    assert Ids(s.chain) == IdOf(s.chain[0]) + Ids(s.chain[1..]);
    if !s.tail.Node? { assert s.chain[1..] != [] && s.chain[1..][0] == s.chain[1]; }
  }

  lemma TakesLinked(s: State)
    requires Consumer !in s.pushes && s.tail.Node? && NextOf(s, s.tail) != Null
    requires s.cons.Deq? || s.cons.DeqSkipped? || s.cons.DeqAgain?
    requires !s.cons.DeqAgain? ==> s.cons.until != s.tail
    ensures Alone(s).cons == GotDequeued(Data(s.tail))
  {
  }

  /** The last node in the queue is handed out behind the end marker that the consumer pushes. */
  lemma TakesLast(s: State)
    requires s.cons.DeqPushEnd? && s.head == s.tail && s.tail.Node?
    requires Consumer in s.pushes && s.pushes[Consumer] == Clear(End)
    ensures AloneFor(s, 6).cons == GotDequeued(Data(s.tail))
  {
    PushGoesThrough(s, Consumer);
    PushTakesFour(s);
    AlonePushes(s, 4);
    AloneAppend(s, 4, 2);
    var pushed := AloneFor(s, 4);
    var again := Alone(pushed);
    TakesLinked(again);
    assert AloneFor(pushed, 2) == AloneFor(again, 1) == AloneFor(Alone(again), 0);
  }

  lemma PushTakesFour(s: State)
    requires Consumer in s.pushes && s.pushes[Consumer] == Clear(End) && s.head != Closed
    ensures forall i: nat :: i < 4 ==> !PushFor(s, Consumer, i).pushes[Consumer].Pushed?
  {
    var s1 := StepPush(s, Consumer);
    var s2 := StepPush(s1, Consumer);
    var s3 := StepPush(s2, Consumer);
    assert PushFor(s, Consumer, 1) == s1;
    assert PushFor(s, Consumer, 2) == PushFor(s1, Consumer, 1) == s2;
    assert PushFor(s, Consumer, 3) == PushFor(s1, Consumer, 2) == PushFor(s2, Consumer, 1) == s3;
    assert PushFor(s, Consumer, 0) == s;
  }

  /** From a registered node at the tail, which is not the one to stop at. */
  lemma DequeuesTail(s: State) returns (k: nat)
    requires Inv(s) && (s.cons.Deq? || s.cons.DeqSkipped?) && NothingHalfPushed(s) && s.tail.Node?
    requires s.tail != s.cons.until
    ensures k <= 8 && AloneFor(s, k).cons == GotDequeued(Data(s.tail))
  {
    NoOwnPush(s);
    if |s.chain| > 1 {
      AllLinked(s, 0);
      hide Inv;
      TakesLinked(s);
      k := 1;
      assert AloneFor(s, 1) == AloneFor(Alone(s), 0);
    } else {
      assert s.head == s.tail && NextOf(s, s.tail) == Null;
      hide Inv;
      var looked := Alone(s);
      var pushing := Alone(looked);
      TakesLast(pushing);
      k := 8;
      assert AloneFor(s, 8) == AloneFor(looked, 7) == AloneFor(pushing, 6);
    }
  }

  lemma NoOwnPush(s: State)
    requires PushesOk(s) && !s.cons.Idle? && !s.cons.DeqPushEnd?
    ensures Consumer !in s.pushes
  {
    assert Consumer in s.pushes ==> PushOk(s, Consumer);
  }

  /** Skipping a marker keeps what the answer rests on. */
  lemma Skips(s: State)
    requires Inv(s) && s.cons.Deq? && Marker(s.tail) && |s.chain| > 1 && NothingHalfPushed(s)
    ensures var s' := Alone(s);
            && Inv(s') && NothingHalfPushed(s') && s'.cons == DeqSkipped(s.cons.until) && s'.tail == s.chain[1]
            && s'.chain == s.chain[1..] && s'.head == s.head && s'.pushes == s.pushes
  {
    NoOwnPush(s);
    AllLinked(s, 0);
    ConsInv(s);
    hide Inv;
  }

  /** A closed queue with nothing but the marker in front. */
  predicate ClosedBehindMarker(s: State) { |s.chain| == 2 && Marker(s.chain[0]) && s.chain[1] == Closed }

  predicate HasNodeFor(s: State, until: Ptr) {
    Ids(s.chain) != [] && |s.out| < |s.log| && Node(s.log[|s.out|]) != until
  }

  /** `dequeue_node` without interference and with nothing half pushed hands out the oldest node,
      unless there is none or it is the one to stop at, within nine operations. */
  lemma DequeueAloneTakesOldest(s: State, until: Ptr) returns (k: nat)
    requires Inv(s) && s.cons == Deq(until) && NothingHalfPushed(s) && HasNodeFor(s, until)
    ensures k <= 9 && AloneFor(s, k).cons == GotDequeued(Data(Node(s.log[|s.out|])))
  {
    OldestIs(s);
    hide ChainOk, MarkersOk, PushesOk, ConsOk, WakeOk, FifoOk, Alone;
    if s.tail.Node? {
      k := DequeuesTail(s);
    } else {
      Skips(s);
      hide Inv;
      var rest := DequeuesTail(Alone(s));
      k := rest + 1;
      assert AloneFor(s, k) == AloneFor(Alone(s), rest);
    }
  }

  /** Otherwise it answers that the queue is empty, and a closed queue with a marker in front once
      that it is inconsistent. */
  lemma DequeueAloneIsEmpty(s: State, until: Ptr) returns (k: nat)
    requires Inv(s) && s.cons == Deq(until) && NothingHalfPushed(s) && !HasNodeFor(s, until)
    requires until == Null || until.Node?
    ensures k <= 9
    ensures AloneFor(s, k).cons == GotDequeued(if ClosedBehindMarker(s) then Inconsistent else Empty)
  {
    if Ids(s.chain) != [] {
      k := StopsAtUntil(s, until);
    } else {
      NodelessIs(s);
      if |s.chain| == 2 {
        ClosedIsInconsistent(s);
        k := 8;
      } else {
        k := MarkerIsEmpty(s);
      }
    }
  }

  lemma StopsAtUntil(s: State, until: Ptr) returns (k: nat)
    requires Inv(s) && s.cons == Deq(until) && NothingHalfPushed(s) && Ids(s.chain) != []
    requires |s.out| < |s.log| ==> until == Node(s.log[|s.out|])
    ensures k <= 2 && AloneFor(s, k).cons == GotDequeued(Empty) && !ClosedBehindMarker(s)
  {
    OldestIs(s);
    NoOwnPush(s);
    if s.tail.Node? {
      hide Inv;
      k := 1;
      assert AloneFor(s, 1) == AloneFor(Alone(s), 0);
    } else {
      Skips(s);
      hide Inv;
      k := 2;
      assert AloneFor(s, 2) == AloneFor(Alone(s), 1) == AloneFor(Alone(Alone(s)), 0);
    }
  }

  lemma MarkerIsEmpty(s: State) returns (k: nat)
    requires Inv(s) && s.cons.Deq? && Marker(s.tail) && s.head == s.tail && NextOf(s, s.tail) == Null
    ensures k <= 3 && AloneFor(s, k).cons == GotDequeued(Empty)
  {
    NoOwnPush(s);
    hide Inv;
    var s1 := Alone(s);
    if s.tail == Sleep {
      var s2 := Alone(s1);
      k := 3;
      assert AloneFor(s, 3) == AloneFor(s1, 2) == AloneFor(s2, 1) == AloneFor(Alone(s2), 0);
    } else {
      k := 1;
      assert AloneFor(s, 1) == AloneFor(s1, 0);
    }
  }

  /** Without nodes, the chain is a marker, or one before the closed marker. */
  lemma NodelessIs(s: State)
    requires ChainOk(s) && MarkersOk(s) && Ids(s.chain) == []
    ensures |s.chain| == 1 || ClosedBehindMarker(s)
    ensures Marker(s.tail) && (|s.chain| == 1 ==> s.head == s.tail && NextOf(s, s.tail) == Null)
  {
    assert Ids(s.chain) == IdOf(s.chain[0]) + Ids(s.chain[1..]);
    if |s.chain| > 1 {
      var rest := s.chain[1..];
      assert Ids(rest) == IdOf(rest[0]) + Ids(rest[1..]) && rest[0] == s.chain[1];
      assert !rest[0].Node?;
      assert s.chain[1] in s.chain;
    }
  }

  lemma ClosedIsInconsistent(s: State)
    requires Inv(s) && s.cons.Deq? && s.cons.until != Closed && NothingHalfPushed(s) && ClosedBehindMarker(s)
    ensures AloneFor(s, 8).cons == GotDequeued(Inconsistent)
  {
    Skips(s);
    var s1 := Alone(s);
    NoOwnPush(s1);
    assert s1.head == Closed && NextOf(s1, Closed) == Null;
    hide Inv;
    var s2 := Alone(s1);
    var s3 := Alone(s2);
    assert s2.cons == DeqHead && s3.cons == DeqPushEnd && s3.pushes[Consumer] == Clear(End)
           && s3.head == s3.tail == Closed;
    TurnedAwayIsInconsistent(s3);
    assert AloneFor(s, 8) == AloneFor(s1, 7) == AloneFor(s2, 6) == AloneFor(s3, 5);
  }

  lemma TurnedAwayIsInconsistent(s: State)
    requires s.cons.DeqPushEnd? && s.head == s.tail == Closed && NextOf(s, Closed) == Null
    requires Consumer in s.pushes && s.pushes[Consumer] == Clear(End)
    ensures AloneFor(s, 5).cons == GotDequeued(Inconsistent)
  {
    var s1, s2, s3 := Alone(s), Alone(Alone(s)), Alone(Alone(Alone(s)));
    assert s1.pushes[Consumer] == Load(End) && s2.pushes[Consumer] == Try(End, Closed);
    assert s3.pushes[Consumer] == Pushed(End, false, 0) && NextOf(s3, Closed) == Null && s3.tail == Closed;
    var s4 := Alone(s3);
    assert AloneFor(s, 5) == AloneFor(s1, 4) == AloneFor(s2, 3) == AloneFor(s3, 2) == AloneFor(s4, 1);
    assert AloneFor(s4, 1) == AloneFor(Alone(s4), 0);
  }

  // ---- going to sleep and waking up alone ----

  /** `prepare_for_sleep` without interference answers true exactly when no node is queued and the
      queue is not closed; then the sleep marker is in place. */
  lemma PrepareAlone(s: State) returns (k: nat)
    requires Inv(s) && s.cons.Idle? && Consumer !in s.pushes
    ensures k <= 2 && AloneFor(StartPrepare(s), k).cons == GotPrepared(s.chain == [End] || s.chain == [Sleep])
    ensures AloneFor(StartPrepare(s), k).chain == if s.chain == [End] then [Sleep] else s.chain
  {
    AloneMarkers(s);
    hide Inv;
    k := if s.tail.Sleep? then 1 else if s.tail.End? then 2 else 0;
    if s.tail.Sleep? {
      AwakeStill(s);
    } else if s.tail.End? {
      FallsAsleep(s);
    } else {
      assert AloneFor(StartPrepare(s), 0) == StartPrepare(s);
    }
  }

  lemma AwakeStill(s: State)
    requires s.tail == Sleep && Consumer !in s.pushes
    ensures AloneFor(StartPrepare(s), 1) == s.(cons := GotPrepared(s.head == Sleep))
  {
    var s0 := StartPrepare(s);
    assert AloneFor(s0, 1) == AloneFor(Alone(s0), 0);
  }

  lemma FallsAsleep(s: State)
    requires s.tail == End && Consumer !in s.pushes
    ensures AloneFor(StartPrepare(s), 2).cons == GotPrepared(s.head == End)
    ensures AloneFor(StartPrepare(s), 2).chain == if s.head == End then [Sleep] else s.chain
  {
    var s0 := StartPrepare(s);
    var s1 := Alone(s0);
    assert s1 == s.(next := s.next[Sleep := Null], cons := PrepCas);
    assert AloneFor(s0, 2) == AloneFor(s1, 1) == AloneFor(Alone(s1), 0);
  }

  lemma AloneMarkers(s: State)
    requires ChainOk(s)
    ensures s.chain == [End] <==> s.head == s.tail == End
    ensures s.chain == [Sleep] <==> s.head == s.tail == Sleep
  {
    assert s.head == s.tail ==> s.chain == [s.tail];
  }

  /** `clear_sleep_marker` without interference takes the sleep marker out of an empty queue and
      leaves any other queue as it is. */
  lemma ClearAlone(s: State) returns (k: nat)
    requires Inv(s) && s.cons.Idle? && Consumer !in s.pushes
    ensures k <= 2 && AloneFor(StartClear(s, false), k).cons == GotCleared
    ensures AloneFor(StartClear(s, false), k).chain == if s.chain == [Sleep] then [End] else s.chain
  {
    AloneMarkers(s);
    HeadFacts(s);
    hide Inv;
    k := if s.tail.Sleep? then 2 else 0;
    if s.tail.Sleep? { WakesUp(s); } else { assert AloneFor(StartClear(s, false), 0) == StartClear(s, false); }
  }

  lemma WakesUp(s: State)
    requires s.tail == Sleep && Consumer !in s.pushes
    ensures AloneFor(StartClear(s, false), 2).cons == GotCleared
    ensures AloneFor(StartClear(s, false), 2).chain == if s.head == Sleep then [End] else s.chain
  {
    var s0 := StartClear(s, false);
    var s1 := Alone(s0);
    assert s1 == s.(next := s.next[End := Null], cons := ClearCas(false));
    assert AloneFor(s0, 2) == AloneFor(s1, 1) == AloneFor(Alone(s1), 0);
  }

  // ---- inconsistent answers ----

  /** Inside `dequeue_node`, before the answer. */
  predicate Looking(c: Cons) { c.Deq? || c.DeqSkipped? || c.DeqHead? || c.DeqPushEnd? || c.DeqAgain? }

  /** The push behind the tail has not stored its link. */
  predicate HalfPushedBehind(s: State) { s.tail in s.owed }

  /** Once the consumer has pushed the end marker behind the tail, something is behind it, or it was
      turned away by the closed marker. */
  predicate EndFollows(s: State) {
    && (s.cons.DeqAgain? ==> |s.chain| > 1 || s.tail == Closed)
    && (s.cons.DeqPushEnd? && Consumer in s.pushes ==>
          var p := s.pushes[Consumer];
          && (p.Link? || p.Pushed? ==> |s.chain| > 1 || s.tail == Closed)
          && (p.Try? && p.prev.Closed? ==> s.head == Closed))
  }

  lemma EndFollowsByPush(s: State, t: Thread)
    requires ChainOk(s) && t in s.pushes && EndFollows(s) && PushOk(s, t)
    ensures EndFollows(StepPush(s, t))
  {
  }

  /** The choice once the tail's link has been read. */
  lemma NextAnswers(s: State, until: Ptr, next: Ptr)
    ensures var s' := AfterNext(s, until, next);
            && (s'.cons == GotDequeued(Empty) || s'.cons == GotDequeued(Data(s.tail)) || s'.cons == DeqHead)
            && (s'.cons == DeqHead ==> next == Null && s' == s.(cons := DeqHead))
  {
  }

  lemma EndFollowsFinish(s: State)
    requires EndFollows(s) && s.cons.DeqPushEnd?
    ensures EndFollows(StepCons(s))
  {
  }

  lemma EndFollowsByCons(s: State)
    requires EndFollows(s) && (Consumer !in s.pushes || s.cons.DeqPushEnd?)
    ensures EndFollows(StepCons(s))
  {
    hide AfterNext, Take, NextOf, Finish;
    if s.cons.DeqPushEnd? {
      EndFollowsFinish(s);
    } else {
      if s.cons.Deq? || s.cons.DeqSkipped? { NextAnswers(s, s.cons.until, NextOf(s, s.tail)); }
      if s.cons.DeqAgain? { TakeAnswers(s); }
    }
  }

  lemma TakeAnswers(s: State)
    ensures Take(s, NextOf(s, s.tail)).cons == GotDequeued(Data(s.tail))
  {
  }

  lemma EndFollowsStep(s: State, step: Step)
    requires Inv(s) && Enabled(s, step) && EndFollows(s)
    ensures EndFollows(Apply(s, step))
  {
    hide MarkersOk, WakeOk, FifoOk, ConsOk;
    match step
    case DoPush(t) => assert PushOk(s, t); EndFollowsByPush(s, t);
    case DoCons => EndFollowsByCons(s);
    case _ =>
  }

  lemma {:induction false} EndFollowsRun(run: seq<State>, steps: seq<Step>, k: nat)
    requires IsRun(run, steps) && k < |run|
    ensures EndFollows(run[k])
  {
    hide Inv, Apply, Enabled, EndFollows;
    if k == 0 {
      StartEndFollows();
    } else {
      EndFollowsRun(run, steps, k - 1);
      RunInv(run, steps, k - 1);
      EndFollowsStep(run[k - 1], steps[k - 1]);
    }
  }

  lemma StartEndFollows()
    ensures EndFollows(Init())
  {
  }

  /** While the consumer only looks at the head, its tail stays. */
  lemma LookingAtHeadStays(s: State, step: Step)
    requires Enabled(s, step) && Apply(s, step).cons.DeqHead?
    ensures Apply(s, step).tail == s.tail && Looking(s.cons)
    ensures !s.cons.DeqHead? ==> step.DoCons? && NextOf(s, s.tail) == Null
    ensures s.cons.DeqHead? ==> step.BeginPush? || step.DoPush? || step.FinishPush?
  {
    hide CanBegin, CanFinish, StepCons;
    if step.DoCons? { LooksAtHead(s); }
  }

  lemma LooksAtHead(s: State)
    requires StepCons(s).cons.DeqHead?
    ensures (s.cons.Deq? || s.cons.DeqSkipped?) && StepCons(s).tail == s.tail && NextOf(s, s.tail) == Null
    ensures StepCons(s).chain == s.chain
  {
    if s.cons.Deq? || s.cons.DeqSkipped? { LookAnswers(s); } else { OtherAnswers(s); }
    hide StepCons;
  }

  lemma LookAnswers(s: State)
    requires s.cons.Deq? || s.cons.DeqSkipped?
    ensures var s' := StepCons(s);
            && s'.cons != GotDequeued(Inconsistent)
            && (s'.cons.DeqHead? ==> s'.tail == s.tail && s'.chain == s.chain && NextOf(s, s.tail) == Null)
  {
    hide AfterNext, NextOf, StartClear, Advance;
    NextAnswers(s, s.cons.until, NextOf(s, s.tail));
    ClearAnswers(s);
  }

  lemma OtherAnswers(s: State)
    requires !s.cons.Deq? && !s.cons.DeqSkipped?
    ensures !StepCons(s).cons.DeqHead?
    ensures StepCons(s).cons == GotDequeued(Inconsistent) && !s.cons.GotDequeued? ==>
              (s.cons.DeqHead? && s.head != s.tail) || (s.cons.DeqAgain? && NextOf(s, s.tail) == Null)
  {
    if s.cons.DeqAgain? { AgainAnswers(s); } else { RestAnswers(s); }
    hide StepCons;
  }

  lemma AgainAnswers(s: State)
    requires s.cons.DeqAgain?
    ensures StepCons(s).cons == if NextOf(s, s.tail) == Null then GotDequeued(Inconsistent)
            else GotDequeued(Data(s.tail))
  {
    hide Take;
    TakeAnswers(s);
  }

  lemma RestAnswers(s: State)
    requires !s.cons.Deq? && !s.cons.DeqSkipped? && !s.cons.DeqAgain?
    ensures !StepCons(s).cons.DeqHead?
    ensures StepCons(s).cons == GotDequeued(Inconsistent) && !s.cons.GotDequeued?
            ==> s.cons.DeqHead? && s.head != s.tail
  {
    match s.cons
    case DeqHead => hide Begin;
    case DeqPushEnd => hide Finish;
    case ClearStore(_) =>
    case ClearCas(_) =>
    case PrepHead =>
    case PrepStore =>
    case PrepCas =>
    case _ =>
  }

  /** Where the consumer that looks at the head has found no link behind its tail. */
  lemma {:induction false} FoundNoLink(run: seq<State>, steps: seq<Step>, j: nat) returns (i: nat)
    requires IsRun(run, steps) && j < |run| && run[j].cons.DeqHead?
    ensures i < j && Looking(run[i].cons) && NextOf(run[i], run[i].tail) == Null
    ensures forall q :: i < q <= j ==> run[q].cons.DeqHead?
    ensures forall q :: i <= q <= j ==> run[q].tail == run[j].tail
  {
    hide Apply, Enabled;
    if j > 0 {
      LookingAtHeadStays(run[j - 1], steps[j - 1]);
      if run[j - 1].cons.DeqHead? {
        i := FoundNoLink(run, steps, j - 1);
      } else {
        i := j - 1;
      }
    }
  }

  lemma SomethingBehind(s: State)
    requires ChainOk(s) && |s.chain| > 1 && NextOf(s, s.tail) == Null
    ensures HalfPushedBehind(s)
  {
    assert LinkOk(s, 0);
  }

  /** A push that makes the chain longer than its tail is half done at first. */
  lemma FirstBehindIsHalf(s: State, step: Step)
    requires Enabled(s, step) && Apply(s, step).cons == s.cons && Apply(s, step).tail == s.tail && ChainOk(s)
    requires s.cons.DeqHead? && |s.chain| == 1 && |Apply(s, step).chain| > 1
    ensures HalfPushedBehind(Apply(s, step))
  {
    hide StepCons, CanBegin, CanFinish;
    if step.DoCons? { HeadIsLookedAt(s); }
  }

  lemma HeadIsLookedAt(s: State)
    requires s.cons.DeqHead?
    ensures !StepCons(s).cons.DeqHead?
  {
  }

  /** Between finding no link and finding another head, some push behind the tail was half done. */
  lemma {:induction false} HalfPushedBetween(run: seq<State>, steps: seq<Step>, i: nat, j: nat) returns (m: nat)
    requires IsRun(run, steps) && i <= j < |run| && NextOf(run[i], run[i].tail) == Null && run[j].head != run[j].tail
    requires forall q :: i < q <= j ==> run[q].cons.DeqHead?
    requires forall q :: i <= q <= j ==> run[q].tail == run[j].tail
    ensures i <= m <= j && HalfPushedBehind(run[m])
    decreases j - i
  {
    hide Inv, Apply, Enabled;
    InRun(run, steps, i);
    if |run[i].chain| > 1 {
      SomethingBehind(run[i]);
      m := i;
    } else {
      assert i < j;
      InRun(run, steps, i + 1);
      if |run[i + 1].chain| > 1 && run[i].cons.DeqHead? {
        FirstBehindIsHalf(run[i], steps[i]);
        m := i + 1;
      } else {
        ConsLeavesChain(run[i], steps[i]);
        m := HalfPushedBetween(run, steps, i + 1, j);
      }
    }
  }

  lemma InRun(run: seq<State>, steps: seq<Step>, k: nat)
    requires IsRun(run, steps) && k < |run|
    ensures ChainOk(run[k])
    ensures (|run[k].chain| == 1 ==> run[k].head == run[k].tail && NextOf(run[k], run[k].tail) == Null)
  {
    hide Apply, Enabled;
    RunInv(run, steps, k);
  }

  /** The step that begins to look at the head changes no chain. */
  lemma ConsLeavesChain(s: State, step: Step)
    requires Enabled(s, step) && Apply(s, step).cons.DeqHead?
    ensures s.cons.DeqHead? || Apply(s, step).chain == s.chain
  {
    if !s.cons.DeqHead? {
      LookingAtHeadStays(s, step);
      LooksAtHead(s);
    }
  }

  lemma AgainFollows(s: State)
    requires EndFollows(s) && s.cons.DeqAgain? && s.tail != Closed
    ensures |s.chain| > 1
  {
  }

  /** Over every run, an inconsistent answer means that during the call some push behind the tail was
      half done; otherwise the tail is the closed marker. */
  lemma InconsistentMeansHalfPushed(run: seq<State>, steps: seq<Step>, k: nat) returns (m: nat)
    requires IsRun(run, steps) && k < |steps| && !run[k].cons.GotDequeued?
    requires run[k + 1].cons == GotDequeued(Inconsistent)
    ensures run[k].tail == Closed
            || (&& m <= k && HalfPushedBehind(run[m]) && run[m].tail == run[k].tail
                && forall q :: m <= q <= k ==> Looking(run[q].cons))
  {
    hide Inv, Apply, Enabled, EndFollows, ChainOk;
    AnswersInconsistently(run[k], steps[k]);
    m := k;
    if run[k].cons.DeqHead? {
      var i := FoundNoLink(run, steps, k);
      m := HalfPushedBetween(run, steps, i, k);
    } else {
      EndFollowsRun(run, steps, k);
      InRun(run, steps, k);
      if run[k].tail != Closed {
        AgainFollows(run[k]);
        SomethingBehind(run[k]);
      }
    }
  }

  lemma AnswersInconsistently(s: State, step: Step)
    requires Enabled(s, step) && !s.cons.GotDequeued? && Apply(s, step).cons == GotDequeued(Inconsistent)
    ensures (s.cons.DeqHead? && s.head != s.tail) || (s.cons.DeqAgain? && NextOf(s, s.tail) == Null)
  {
    hide CanBegin, CanFinish, StepPush;
    if step.DoPush? { PushKeepsCons(s, step.t); }
    if step.DoCons? { ConsAnswersInconsistently(s); }
    hide StepCons;
  }

  lemma PushKeepsCons(s: State, t: Thread)
    requires t in s.pushes
    ensures StepPush(s, t).cons == s.cons
  {
  }

  lemma ConsAnswersInconsistently(s: State)
    requires !s.cons.GotDequeued? && StepCons(s).cons == GotDequeued(Inconsistent)
    ensures (s.cons.DeqHead? && s.head != s.tail) || (s.cons.DeqAgain? && NextOf(s, s.tail) == Null)
  {
    if s.cons.Deq? || s.cons.DeqSkipped? { LookAnswers(s); } else { OtherAnswers(s); }
    hide StepCons;
  }

  lemma ClearAnswers(s: State)
    ensures StartClear(s, true).cons != GotDequeued(Inconsistent) && StartClear(s, true).cons != DeqHead
  {
  }
}
