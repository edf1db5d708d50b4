/** The hashed timing wheel: doubly linked lists through a slab, a resumable cursor and a cached
    lower bound per slot. It refines a set of timeouts ordered by tick and, within a tick, by
    newest insertion first. */
module TimerWheel {
  import opened Common

  type Token = nat

  const EMPTY: Token := 0xFFFF_FFFF_FFFF_FFFF
  const TICK_MAX: nat := 0xFFFF_FFFF_FFFF_FFFF

  // ---- What the wheel is for ----

  /** A timeout; `born` numbers the insertions. */
  datatype Timeout<T> = Timeout(tick: nat, born: nat, state: T)

  datatype Model<T> = Model(live: map<Token, Timeout<T>>, tick: nat, clock: nat)

  datatype Op<T> =
    | SetAt(delay: nat, token: Token, tick: nat, state: T)
    | Cancel(token: Token, tick: nat, cancelled: Option<T>)
    | Poll(target: nat, fired: Option<T>)

  predicate Before<T>(a: Timeout<T>, b: Timeout<T>) { a.tick < b.tick || (a.tick == b.tick && a.born > b.born) }

  /** `t` is the live timeout with the least tick, the newest of those. */
  ghost predicate First<T>(live: map<Token, Timeout<T>>, t: Token) {
    t in live && forall u :: u in live && u != t ==> Before(live[t], live[u])
  }

  ghost predicate NoneBefore<T>(m: Model<T>, tick: nat) { forall t :: t in m.live ==> tick <= m.live[t].tick }

  function Max(a: nat, b: nat): nat { if a < b then b else a }

  function Remove<T>(live: map<Token, Timeout<T>>, t: Token): map<Token, Timeout<T>> {
    map u | u in live && u != t :: live[u]
  }

  /** A timeout asked for tick `delay` is set for at least one tick ahead, under a free token. */
  ghost predicate Sets<T>(m: Model<T>, op: Op<T>, m': Model<T>)
    requires op.SetAt?
  {
    && op.token !in m.live
    && op.tick == Max(op.delay, m.tick + 1)
    && m' == Model(m.live[op.token := Timeout(op.tick, m.clock, op.state)], m.tick, m.clock + 1)
  }

  /** Only the token and the tick are compared. */
  ghost predicate Cancels<T>(m: Model<T>, op: Op<T>, m': Model<T>)
    requires op.Cancel?
  {
    if op.token in m.live && m.live[op.token].tick == op.tick then
      op.cancelled == Some(m.live[op.token].state) && m' == m.(live := Remove(m.live, op.token))
    else
      op.cancelled == None && m' == m
  }

  /** A target below the current tick is the current tick. The first timeout is delivered if it
      is due by then; nothing else changes but the tick. */
  ghost predicate Polls<T>(m: Model<T>, op: Op<T>, m': Model<T>)
    requires op.Poll?
  {
    var target := Max(op.target, m.tick);
    match op.fired
    case None => (forall t :: t in m.live ==> m.live[t].tick > target) && m' == m.(tick := target + 1)
    case Some(state) => exists t :: First(m.live, t) && Delivers(m, t, target, state, m')
  }

  ghost predicate Delivers<T>(m: Model<T>, t: Token, target: nat, state: T, m': Model<T>)
    requires t in m.live
  {
    && m.live[t].tick <= target
    && state == m.live[t].state
    && m' == Model(Remove(m.live, t), m.live[t].tick, m.clock)
  }

  ghost predicate Next<T>(m: Model<T>, op: Op<T>, m': Model<T>) {
    match op
    case SetAt(_, _, _, _) => Sets(m, op, m')
    case Cancel(_, _, _) => Cancels(m, op, m')
    case Poll(_, _) => Polls(m, op, m')
  }

  // ---- Runs of the model ----

  ghost predicate ModelOk<T>(m: Model<T>) {
    && (forall t :: t in m.live ==> m.tick <= m.live[t].tick && m.live[t].born < m.clock)
    && (forall t, u :: t in m.live && u in m.live && t != u ==> m.live[t].born != m.live[u].born)
  }

  /** No timeout is ever overdue and the tick never goes back. */
  lemma NextKeepsOk<T>(m: Model<T>, op: Op<T>, m': Model<T>)
    requires ModelOk(m) && Next(m, op, m')
    ensures ModelOk(m') && m.tick <= m'.tick && m.clock <= m'.clock
  {
    if op.Poll? && op.fired.Some? {
      var t :| First(m.live, t) && Delivers(m, t, Max(op.target, m.tick), op.fired.value, m');
    }
  }

  ghost predicate IsRun<T>(ms: seq<Model<T>>, ops: seq<Op<T>>) {
    |ms| == |ops| + 1 && ModelOk(ms[0]) && forall i :: 0 <= i < |ops| ==> Next(ms[i], ops[i], ms[i + 1])
  }

  lemma {:induction false} RunMonotone<T>(ms: seq<Model<T>>, ops: seq<Op<T>>, i: nat, j: nat)
    requires IsRun(ms, ops) && i <= j < |ms|
    ensures ModelOk(ms[j]) && ms[i].tick <= ms[j].tick && ms[i].clock <= ms[j].clock && ModelOk(ms[i])
    decreases j
  {
    if j > 0 {
      if i < j {
        RunMonotone(ms, ops, i, j - 1);
        NextKeepsOk(ms[j - 1], ops[j - 1], ms[j]);
      } else {
        RunMonotone(ms, ops, i - 1, j - 1);
        NextKeepsOk(ms[j - 1], ops[j - 1], ms[j]);
      }
    }
  }

  ghost predicate Fires<T>(m: Model<T>, op: Op<T>, m': Model<T>, timeout: Timeout<T>) {
    op.Poll? && op.fired == Some(timeout.state) && exists t :: t in m.live && m.live[t] == timeout && t !in m'.live
  }

  /** What a poll delivers has the tick the wheel then stands at. */
  lemma FiredAtTick<T>(m: Model<T>, op: Op<T>, m': Model<T>, timeout: Timeout<T>)
    requires Next(m, op, m') && Fires(m, op, m', timeout)
    ensures timeout.tick == m'.tick
  {
    var t :| First(m.live, t) && Delivers(m, t, Max(op.target, m.tick), op.fired.value, m');
  }

  /** Over every run, timeouts are delivered in the order of their ticks. */
  lemma DeliveriesInTickOrder<T>(ms: seq<Model<T>>, ops: seq<Op<T>>, i: nat, j: nat, a: Timeout<T>, b: Timeout<T>)
    requires IsRun(ms, ops) && i < j < |ops|
    requires Fires(ms[i], ops[i], ms[i + 1], a) && Fires(ms[j], ops[j], ms[j + 1], b)
    ensures a.tick <= b.tick
  {
    FiredAtTick(ms[i], ops[i], ms[i + 1], a);
    FiredAtTick(ms[j], ops[j], ms[j + 1], b);
    RunMonotone(ms, ops, i + 1, j + 1);
  }

  ghost predicate IsLive<T>(m: Model<T>, born: nat) { exists t :: t in m.live && m.live[t].born == born }

  lemma GoneStaysGone<T>(m: Model<T>, op: Op<T>, m': Model<T>, born: nat)
    requires Next(m, op, m') && born < m.clock && !IsLive(m, born)
    ensures !IsLive(m', born)
  {
    forall t | t in m'.live ensures m'.live[t].born != born {
      assert t in m.live ==> m.live[t].born != born;
    }
  }

  lemma {:induction false} RunStaysGone<T>(ms: seq<Model<T>>, ops: seq<Op<T>>, i: nat, j: nat, born: nat)
    requires IsRun(ms, ops) && i <= j <= |ops|
    requires born < ms[i].clock && !IsLive(ms[i], born)
    ensures !IsLive(ms[j], born)
    decreases j - i
  {
    if i < j {
      RunMonotone(ms, ops, i, i + 1);
      GoneStaysGone(ms[i], ops[i], ms[i + 1], born);
      RunStaysGone(ms, ops, i + 1, j, born);
    }
  }

  /** Over every run, no timeout is delivered twice. */
  lemma DeliveredOnce<T>(ms: seq<Model<T>>, ops: seq<Op<T>>, i: nat, j: nat, timeout: Timeout<T>)
    requires IsRun(ms, ops) && i < j < |ops|
    requires Fires(ms[i], ops[i], ms[i + 1], timeout)
    ensures !Fires(ms[j], ops[j], ms[j + 1], timeout)
  {
    RunMonotone(ms, ops, i, i + 1);
    assert !IsLive(ms[i + 1], timeout.born);
    RunStaysGone(ms, ops, i + 1, j, timeout.born);
  }

  // ---- Handles ----

  /** `ops[m]` sets the timeout that is live under `t` in `ms[j]`. */
  ghost predicate SetBy<T>(ms: seq<Model<T>>, ops: seq<Op<T>>, m: nat, j: nat, t: Token)
    requires |ms| == |ops| + 1 && m < j < |ms|
  {
    && ops[m].SetAt? && ops[m].token == t && t in ms[j].live
    && ms[j].live[t] == Timeout(ops[m].tick, ms[m].clock, ops[m].state)
  }

  /** What is live under a token was so before, or was set since. */
  lemma {:induction false} LiveWasSet<T>(ms: seq<Model<T>>, ops: seq<Op<T>>, i: nat, j: nat, t: Token)
    requires IsRun(ms, ops) && i <= j < |ms| && t in ms[j].live
    ensures (t in ms[i].live && ms[i].live[t] == ms[j].live[t])
            || exists m: nat :: i <= m < j && SetBy(ms, ops, m, j, t)
    decreases j - i
  {
    hide Next, ModelOk;
    if i < j {
      RunMonotone(ms, ops, j - 1, j);
      if t in ms[j - 1].live && ms[j - 1].live[t] == ms[j].live[t] {
        var p := j - 1;
        LiveWasSet(ms, ops, i, p, t);
        if m: nat :| i <= m < p && SetBy(ms, ops, m, p, t) {
          assert SetBy(ms, ops, m, j, t);
        }
      } else {
        SetsJustNow(ms[j - 1], ops[j - 1], ms[j], t);
        assert SetBy(ms, ops, j - 1, j, t);
      }
    }
  }

  lemma SetsJustNow<T>(m: Model<T>, op: Op<T>, m': Model<T>, t: Token)
    requires Next(m, op, m') && t in m'.live && !(t in m.live && m.live[t] == m'.live[t])
    ensures op.SetAt? && op.token == t && m'.live[t] == Timeout(op.tick, m.clock, op.state)
  {
  }

  /** Cancelling with the handle that the set `ops[i]` returned. */
  ghost predicate CancelsWith<T>(ms: seq<Model<T>>, ops: seq<Op<T>>, i: nat, j: nat)
    requires i < j < |ops|
  {
    ops[i].SetAt? && ops[j].Cancel? && ops[j].token == ops[i].token && ops[j].tick == ops[i].tick
  }

  /** The cancellation `ops[j]` takes out a timeout that the set `ops[i]` did not make. */
  ghost predicate TakesAnother<T>(ms: seq<Model<T>>, ops: seq<Op<T>>, i: nat, j: nat)
    requires |ms| == |ops| + 1 && i < j < |ops| && CancelsWith(ms, ops, i, j)
  {
    && ops[j].cancelled.Some? && ops[j].token in ms[j].live
    && ms[j].live[ops[j].token].born != ms[i].clock
  }

  /** A later set under the same token and for the same tick. */
  ghost predicate SetsAgain<T>(ops: seq<Op<T>>, i: nat, m: nat)
    requires i < m < |ops| && ops[i].SetAt?
  {
    ops[m].SetAt? && ops[m].token == ops[i].token && ops[m].tick == ops[i].tick
  }

  /** Over every run: a handle cancels another timeout than its own exactly when a later set with
      the same token and tick is the one that is live. */
  lemma CancelsAnotherExactlyWhenReused<T>(ms: seq<Model<T>>, ops: seq<Op<T>>, i: nat, j: nat)
    requires IsRun(ms, ops) && i < j < |ops| && CancelsWith(ms, ops, i, j)
    ensures TakesAnother(ms, ops, i, j) <==>
            exists m: nat :: i < m < j && SetsAgain(ops, i, m) && SetBy(ms, ops, m, j, ops[i].token)
  {
    var t := ops[i].token;
    assert Next(ms[i], ops[i], ms[i + 1]) && Next(ms[j], ops[j], ms[j + 1]);
    RunMonotone(ms, ops, i, j);
    if TakesAnother(ms, ops, i, j) {
      LiveWasSet(ms, ops, i + 1, j, t);
      var m: nat :| i < m < j && SetBy(ms, ops, m, j, t);
      assert SetsAgain(ops, i, m);
    }
    if m: nat :| i < m < j && SetsAgain(ops, i, m) && SetBy(ms, ops, m, j, t) {
      ClockGrows(ms, ops, i, m);
    }
  }

  lemma ClockGrows<T>(ms: seq<Model<T>>, ops: seq<Op<T>>, i: nat, m: nat)
    requires IsRun(ms, ops) && i < m < |ops| && ops[i].SetAt?
    ensures ms[i].clock < ms[m].clock
  {
    assert Next(ms[i], ops[i], ms[i + 1]);
    RunMonotone(ms, ops, i + 1, m);
  }

  /** What a caller can check: as long as no later set has returned the same token and tick, a
      handle cancels its own timeout or none, its own exactly if that is still live. */
  lemma UniqueHandleCancelsItsOwn<T>(ms: seq<Model<T>>, ops: seq<Op<T>>, i: nat, j: nat)
    requires IsRun(ms, ops) && i < j < |ops| && CancelsWith(ms, ops, i, j)
    requires forall m: nat :: i < m < j ==> !SetsAgain(ops, i, m)
    ensures ops[j].cancelled.Some? <==> IsLive(ms[j], ms[i].clock)
    ensures ops[j].cancelled == Some(ops[i].state) || ops[j].cancelled == None
    ensures !IsLive(ms[j + 1], ms[i].clock)
  {
    var t := ops[i].token;
    CancelsAnotherExactlyWhenReused(ms, ops, i, j);
    assert Next(ms[i], ops[i], ms[i + 1]) && Next(ms[j], ops[j], ms[j + 1]);
    RunMonotone(ms, ops, i + 1, j);
    BirthIsOwn(ms, ops, i, j);
    if t in ms[j].live { LiveWasSet(ms, ops, i + 1, j, t); }
  }

  /** Only the timeout set by `ops[i]` ever has its insertion number. */
  lemma {:induction false} BirthIsOwn<T>(ms: seq<Model<T>>, ops: seq<Op<T>>, i: nat, j: nat)
    requires IsRun(ms, ops) && i < j < |ms| && ops[i].SetAt?
    ensures forall t :: t in ms[j].live && ms[j].live[t].born == ms[i].clock ==>
              t == ops[i].token && ms[j].live[t] == Timeout(ops[i].tick, ms[i].clock, ops[i].state)
    decreases j
  {
    RunMonotone(ms, ops, i, j - 1);
    assert Next(ms[j - 1], ops[j - 1], ms[j]);
    if j - 1 > i {
      ClockGrows(ms, ops, i, j - 1);
      BirthIsOwn(ms, ops, i, j - 1);
    }
  }

  /** A token reused for the same tick: the first handle cancels the second timeout. */
  lemma ReusedKeyExample() returns (ms: seq<Model<int>>, ops: seq<Op<int>>)
    ensures IsRun(ms, ops) && |ops| == 4
    ensures ops[0] == SetAt(5, 0, 5, 10) && ops[1] == Cancel(0, 5, Some(10)) && ops[2] == SetAt(5, 0, 5, 20)
    ensures ops[3] == Cancel(0, 5, Some(20)) && CancelsWith(ms, ops, 0, 3) && TakesAnother(ms, ops, 0, 3)
  {
    var m0: Model<int> := Model(map[], 0, 0);
    var m1: Model<int> := Model(map[0 := Timeout(5, 0, 10)], 0, 1);
    var m2: Model<int> := Model(map[], 0, 1);
    var m3: Model<int> := Model(map[0 := Timeout(5, 1, 20)], 0, 2);
    var m4: Model<int> := Model(map[], 0, 2);
    ms := [m0, m1, m2, m3, m4];
    ops := [SetAt(5, 0, 5, 10), Cancel(0, 5, Some(10)), SetAt(5, 0, 5, 20), Cancel(0, 5, Some(20))];
    assert Next(m0, ops[0], m1) && Next(m2, ops[2], m3);
    assert Next(m1, ops[1], m2) by { assert Remove(m1.live, 0) == map[]; }
    assert Next(m3, ops[3], m4) by { assert Remove(m3.live, 0) == map[]; }
    assert IsRun(ms, ops);
  }

  // ---- The wheel ----

  datatype Links = Links(tick: nat, prev: Token, next: Token)
  datatype Entry<T> = Entry(state: T, links: Links)
  datatype WheelEntry = WheelEntry(nextTick: nat, head: Token)

  /** The slots are a power of two, so masking the tick is taking it modulo their number. */
  function SlotFor(tick: nat, slots: nat): (slot: nat)
    requires slots > 0
    ensures slot < slots
  {
    tick % slots
  }

  function At(list: seq<Token>, i: int): Token { if 0 <= i < |list| then list[i] else EMPTY }

  /** The entry for `list[i]` is in its slot and linked to its neighbours. */
  ghost predicate Node<T>(entries: map<Token, Entry<T>>, list: seq<Token>, i: nat, slot: nat, slots: nat)
    requires slots > 0 && i < |list|
  {
    && list[i] in entries
    && SlotFor(entries[list[i]].links.tick, slots) == slot
    && entries[list[i]].links.prev == At(list, i - 1)
    && entries[list[i]].links.next == At(list, i + 1)
  }

  ghost predicate Spelled<T>(entries: map<Token, Entry<T>>, list: seq<Token>, slot: nat, slots: nat)
    requires slots > 0
  {
    forall i :: 0 <= i < |list| ==> Node(entries, list, i, slot, slots)
  }

  ghost predicate Distinct(list: seq<Token>) { forall i, j :: 0 <= i < j < |list| ==> list[i] != list[j] }

  /** `lists` are the lists that the links spell, one per slot, and every entry is in its own. */
  ghost predicate Linked<T>(entries: map<Token, Entry<T>>, wheel: seq<WheelEntry>, lists: seq<seq<Token>>) {
    && |wheel| == |lists| > 0
    && (forall s :: 0 <= s < |lists| ==>
          Spelled(entries, lists[s], s, |lists|) && Distinct(lists[s]) && wheel[s].head == At(lists[s], 0))
    && (forall t :: t in entries ==> t < EMPTY && t in lists[SlotFor(entries[t].links.tick, |lists|)])
  }

  function Without(list: seq<Token>, k: nat): seq<Token>
    requires k < |list|
  {
    list[..k] + list[k + 1..]
  }

  /** Unlinking the entry at `lists[slot][k]`. */
  function Relinked<T>(entries: map<Token, Entry<T>>, links: Links): map<Token, Entry<T>>
    requires links.prev == EMPTY || links.prev in entries
    requires links.next == EMPTY || links.next in entries
  {
    var e := if links.prev == EMPTY then entries
             else entries[links.prev := entries[links.prev].(links := entries[links.prev].links.(next := links.next))];
    if links.next == EMPTY then e
    else e[links.next := e[links.next].(links := e[links.next].links.(prev := links.prev))]
  }

  lemma RelinkedAt<T>(entries: map<Token, Entry<T>>, links: Links, u: Token)
    requires links.prev == EMPTY || links.prev in entries
    requires links.next == EMPTY || links.next in entries
    requires u in entries
    ensures Relinked(entries, links).Keys == entries.Keys
    ensures Relinked(entries, links)[u].state == entries[u].state
    ensures Relinked(entries, links)[u].links.tick == entries[u].links.tick
    ensures Relinked(entries, links)[u].links.prev
            == if u == links.next != EMPTY then links.prev else entries[u].links.prev
    ensures Relinked(entries, links)[u].links.next
            == if u == links.prev != EMPTY then links.next else entries[u].links.next
  {
  }

  lemma SpelledWithout<T>(entries: map<Token, Entry<T>>, entries': map<Token, Entry<T>>, list: seq<Token>, k: nat,
                          slot: nat, slots: nat)
    requires slots > 0 && k < |list| && Spelled(entries, list, slot, slots) && Distinct(list) && EMPTY !in list
    requires list[k] in entries
    requires entries[list[k]].links.prev == EMPTY || entries[list[k]].links.prev in entries
    requires entries[list[k]].links.next == EMPTY || entries[list[k]].links.next in entries
    requires entries' == Relinked(entries, entries[list[k]].links) - {list[k]}
    ensures Spelled(entries', Without(list, k), slot, slots) && Distinct(Without(list, k))
  {
    var list' := Without(list, k);
    forall i | 0 <= i < |list'| ensures Node(entries', list', i, slot, slots) {
      var j := if i < k then i else i + 1;
      assert Node(entries, list, j, slot, slots) && Node(entries, list, k, slot, slots);
      RelinkedAt(entries, entries[list[k]].links, list[j]);
    }
  }

  lemma NeighboursExist<T>(entries: map<Token, Entry<T>>, wheel: seq<WheelEntry>, lists: seq<seq<Token>>, t: Token)
    returns (k: nat)
    requires Linked(entries, wheel, lists) && t in entries
    ensures SlotFor(entries[t].links.tick, |lists|) < |lists|
    ensures k < |lists[SlotFor(entries[t].links.tick, |lists|)]|
    ensures lists[SlotFor(entries[t].links.tick, |lists|)][k] == t
    ensures entries[t].links.prev == At(lists[SlotFor(entries[t].links.tick, |lists|)], k - 1)
    ensures entries[t].links.next == At(lists[SlotFor(entries[t].links.tick, |lists|)], k + 1)
    ensures entries[t].links.prev == EMPTY <==> k == 0
    ensures entries[t].links.prev == EMPTY || entries[t].links.prev in entries
    ensures entries[t].links.next == EMPTY || entries[t].links.next in entries
  {
    var slot := SlotFor(entries[t].links.tick, |lists|);
    var list := lists[slot];
    k :| 0 <= k < |list| && list[k] == t;
    assert Node(entries, list, k, slot, |lists|);
    assert k > 0 ==> Node(entries, list, k - 1, slot, |lists|);
    assert k + 1 < |list| ==> Node(entries, list, k + 1, slot, |lists|);
  }

  /** Other slots' lists do not notice. */
  lemma SpelledElsewhere<T>(entries: map<Token, Entry<T>>, wheel: seq<WheelEntry>, lists: seq<seq<Token>>, t: Token,
                            other: nat)
    requires Linked(entries, wheel, lists) && t in entries && other < |lists|
    requires other != SlotFor(entries[t].links.tick, |lists|)
    requires entries[t].links.prev == EMPTY || entries[t].links.prev in entries
    requires entries[t].links.next == EMPTY || entries[t].links.next in entries
    ensures Spelled(Relinked(entries, entries[t].links) - {t}, lists[other], other, |lists|)
  {
    var list, entries' := lists[other], Relinked(entries, entries[t].links) - {t};
    var slot := SlotFor(entries[t].links.tick, |lists|);
    var k := NeighboursExist(entries, wheel, lists, t);
    forall i | 0 <= i < |list| ensures Node(entries', list, i, other, |lists|) {
      assert Node(entries, list, i, other, |lists|);
      assert k > 0 ==> Node(entries, lists[slot], k - 1, slot, |lists|);
      assert k + 1 < |lists[slot]| ==> Node(entries, lists[slot], k + 1, slot, |lists|);
      RelinkedAt(entries, entries[t].links, list[i]);
    }
  }

  function Beheaded(wheel: seq<WheelEntry>, slot: nat, links: Links): seq<WheelEntry>
    requires slot < |wheel|
  {
    if links.prev == EMPTY then wheel[slot := wheel[slot].(head := links.next)] else wheel
  }

  /** Unlinking an entry takes it out of its slot's list and leaves every other list as it is. */
  lemma UnlinkedIsLinked<T>(entries: map<Token, Entry<T>>, wheel: seq<WheelEntry>, lists: seq<seq<Token>>, t: Token,
                            slot: nat, k: nat)
    requires Linked(entries, wheel, lists) && t in entries && slot == SlotFor(entries[t].links.tick, |lists|)
    requires k < |lists[slot]| && lists[slot][k] == t
    requires entries[t].links.prev == EMPTY || entries[t].links.prev in entries
    requires entries[t].links.next == EMPTY || entries[t].links.next in entries
    ensures Linked(Relinked(entries, entries[t].links) - {t}, Beheaded(wheel, slot, entries[t].links),
                   lists[slot := Without(lists[slot], k)])
  {
    var entries', list := Relinked(entries, entries[t].links) - {t}, lists[slot];
    var wheel' := Beheaded(wheel, slot, entries[t].links);
    var lists' := lists[slot := Without(list, k)];
    var k' := NeighboursExist(entries, wheel, lists, t);
    assert k == k' && EMPTY !in list by {
      forall i | 0 <= i < |list| ensures list[i] != EMPTY { assert Node(entries, list, i, slot, |lists|); }
    }
    SpelledWithout(entries, entries', list, k, slot, |lists|);
    forall s | 0 <= s < |lists'|
      ensures Spelled(entries', lists'[s], s, |lists|) && Distinct(lists'[s]) && wheel'[s].head == At(lists'[s], 0)
    {
      if s != slot { SpelledElsewhere(entries, wheel, lists, t, s); }
    }
    forall u | u in entries' ensures u < EMPTY && u in lists'[SlotFor(entries'[u].links.tick, |lists|)] {
      RelinkedAt(entries, entries[t].links, u);
      if SlotFor(entries[u].links.tick, |lists|) == slot { InWithout(list, k, u); }
    }
  }

  lemma InWithout(list: seq<Token>, k: nat, u: Token)
    requires k < |list| && u in list && u != list[k]
    ensures u in Without(list, k)
  {
    var j :| 0 <= j < |list| && list[j] == u;
    assert Without(list, k)[if j < k then j else j - 1] == u;
  }

  /** The least cached tick. */
  function Least(wheel: seq<WheelEntry>): (least: nat)
    ensures forall s :: 0 <= s < |wheel| ==> least <= wheel[s].nextTick
    ensures wheel != [] ==> exists s :: 0 <= s < |wheel| && least == wheel[s].nextTick
  {
    if wheel == [] then 0
    else if |wheel| == 1 then wheel[0].nextTick
    else
      var rest := Least(wheel[..|wheel| - 1]);
      assert forall s :: 0 <= s < |wheel| - 1 ==> wheel[s] == wheel[..|wheel| - 1][s];
      if wheel[|wheel| - 1].nextTick < rest then wheel[|wheel| - 1].nextTick else rest
  }

  /** Everything about a wheel at one moment. `lists` are the lists its links spell, `born` the
      insertion numbers, `at` the place of the cursor in the current slot's list, and `walking`
      says whether that list has been entered since the tick moved. */
  datatype View<T> = View(entries: map<Token, Entry<T>>, wheel: seq<WheelEntry>, tick: nat, next: Token,
                          lists: seq<seq<Token>>, born: map<Token, nat>, clock: nat, at: nat, walking: bool)
  {
    ghost predicate Spells() { Linked(entries, wheel, lists) }

    function Slot(): nat
      requires |lists| > 0
    {
      SlotFor(tick, |lists|)
    }

    ghost predicate Cursor() { |lists| > 0 && at <= |lists[Slot()]| && next == At(lists[Slot()], at) }

    ghost predicate Aged() {
      && born.Keys == entries.Keys
      && (forall t :: t in born ==> born[t] < clock)
      && (forall t, u :: t in born && u in born && t != u ==> born[t] != born[u])
    }

    /** Every list has its newest entry first. */
    ghost predicate Ordered() { forall s :: 0 <= s < |lists| ==> NewestFirst(lists[s]) }

    ghost predicate NewestFirst(list: seq<Token>) { forall i, j :: 0 <= i < j < |list| ==> Newer(list[i], list[j]) }

    predicate Newer(t: Token, u: Token) { t in born && u in born && born[t] > born[u] }

    /** No entry is overdue, and what is due now is not before the cursor. */
    ghost predicate Due() {
      && |lists| > 0
      && (forall t :: t in entries ==> tick <= entries[t].links.tick)
      && (forall i :: 0 <= i < at && i < |lists[Slot()]| ==> TickOf(lists[Slot()][i]) != tick)
    }

    function TickOf(t: Token): nat { if t in entries then entries[t].links.tick else 0 }

    /** A slot's cached tick is no later than its entries'; for the slot that is being walked this
        holds up to the cursor. */
    ghost predicate Bounds() {
      && 0 < |lists| == |wheel|
      && (forall s, i :: 0 <= s < |lists| && 0 <= i < |lists[s]| && (!walking || s != Slot() || i < at) ==>
            wheel[s].nextTick <= TickOf(lists[s][i]))
    }

    /** Ticks are 64-bit words. */
    ghost predicate InRange() { tick <= TICK_MAX && forall t :: t in entries ==> 0 < entries[t].links.tick <= TICK_MAX }

    /** The tick to wake up for. */
    function NextTick(): nat
      requires wheel != []
    {
      if next in entries && wheel[SlotFor(entries[next].links.tick, |wheel|)].nextTick == tick then tick
      else Least(wheel)
    }

    /** An entry that the walk has not passed yet is earlier than every cached tick. */
    ghost predicate Overlooks() {
      && |lists| > 0
      && exists i :: at <= i < |lists[Slot()]| && TickOf(lists[Slot()][i]) < Least(wheel)
    }

    ghost predicate Wakes() { forall s :: 0 <= s < |wheel| ==> 0 < wheel[s].nextTick <= TICK_MAX }

    ghost predicate Ok() { Wakes() && Spells() && Cursor() && Aged() && Ordered() && Due() && Bounds() }

    ghost function Abs(): Model<T>
      requires born.Keys == entries.Keys
    {
      Model(map t | t in entries :: Timeout(entries[t].links.tick, born[t], entries[t].state), tick, clock)
    }
  }

  /** The entry `t`, the `k`th of its slot, is gone. */
  ghost predicate Removes<T>(w: View<T>, w': View<T>, t: Token, slot: nat, k: nat) {
    && w.Spells() && t in w.entries && slot == SlotFor(w.entries[t].links.tick, |w.lists|)
    && k < |w.lists[slot]| && w.lists[slot][k] == t
    && (w.entries[t].links.prev == EMPTY || w.entries[t].links.prev in w.entries)
    && (w.entries[t].links.next == EMPTY || w.entries[t].links.next in w.entries)
    && w'.entries == Relinked(w.entries, w.entries[t].links) - {t}
    && w'.wheel == Beheaded(w.wheel, slot, w.entries[t].links)
    && w'.lists == w.lists[slot := Without(w.lists[slot], k)]
    && w'.born == w.born - {t}
    && w'.clock == w.clock && w'.tick == w.tick
    && w'.next == (if t == w.next then w.entries[t].links.next else w.next)
    && w'.at == (if slot == SlotFor(w.tick, |w.lists|) && k < w.at then w.at - 1 else w.at)
  }

  lemma RemovesTicks<T>(w: View<T>, w': View<T>, t: Token, slot: nat, k: nat)
    requires Removes(w, w', t, slot, k)
    ensures w'.entries.Keys == w.entries.Keys - {t}
    ensures forall u :: u in w'.entries ==> w'.TickOf(u) == w.TickOf(u) && w'.entries[u].state == w.entries[u].state
  {
    forall u | u in w'.entries ensures w'.TickOf(u) == w.TickOf(u) && w'.entries[u].state == w.entries[u].state {
      RelinkedAt(w.entries, w.entries[t].links, u);
    }
  }

  lemma RemovesCursor<T>(w: View<T>, w': View<T>, t: Token, slot: nat, k: nat)
    requires Removes(w, w', t, slot, k) && w.Cursor()
    ensures w'.Cursor()
  {
    assert Node(w.entries, w.lists[slot], k, slot, |w.lists|);
    var cur := w.Slot();
    assert t < EMPTY;
    if t == w.next {
      assert w.at < |w.lists[cur]|;
      assert Node(w.entries, w.lists[cur], w.at, cur, |w.lists|);
    }
  }

  lemma RemovesAged<T>(w: View<T>, w': View<T>, t: Token, slot: nat, k: nat)
    requires Removes(w, w', t, slot, k) && w.Aged()
    ensures w'.Aged()
  {
    RemovesTicks(w, w', t, slot, k);
  }

  lemma WithoutNewestFirst<T>(w: View<T>, w': View<T>, list: seq<Token>, k: nat)
    requires w.NewestFirst(list) && k < |list| && Distinct(list) && w'.born == w.born - {list[k]}
    ensures w'.NewestFirst(Without(list, k))
  {
    var list' := Without(list, k);
    forall i, j | 0 <= i < j < |list'| ensures w'.Newer(list'[i], list'[j]) {
      assert w.Newer(list[if k <= i then i + 1 else i], list[if k <= j then j + 1 else j]);
    }
  }

  lemma ElsewhereNewestFirst<T>(w: View<T>, w': View<T>, list: seq<Token>, t: Token)
    requires w.NewestFirst(list) && t !in list && w'.born == w.born - {t}
    ensures w'.NewestFirst(list)
  {
    forall i, j | 0 <= i < j < |list| ensures w'.Newer(list[i], list[j]) {
      assert w.Newer(list[i], list[j]);
    }
  }

  lemma RemovesOrdered<T>(w: View<T>, w': View<T>, t: Token, slot: nat, k: nat)
    requires Removes(w, w', t, slot, k) && w.Ordered()
    ensures w'.Ordered()
  {
    forall s | 0 <= s < |w'.lists| ensures w'.NewestFirst(w'.lists[s]) {
      if s == slot {
        WithoutNewestFirst(w, w', w.lists[s], k);
      } else {
        forall i | 0 <= i < |w.lists[s]| ensures w.lists[s][i] != t {
          assert Node(w.entries, w.lists[s], i, s, |w.lists|);
        }
        ElsewhereNewestFirst(w, w', w.lists[s], t);
      }
    }
  }

  lemma RemovesDue<T>(w: View<T>, w': View<T>, t: Token, slot: nat, k: nat)
    requires Removes(w, w', t, slot, k) && w.Due()
    ensures w'.Due()
  {
    hide Relinked;
    RemovesTicks(w, w', t, slot, k);
    UnlinkedIsLinked(w.entries, w.wheel, w.lists, t, slot, k);
    var cur := w.Slot();
    forall i | 0 <= i < w'.at && i < |w'.lists[cur]| ensures w'.TickOf(w'.lists[cur][i]) != w'.tick {
      assert w'.lists[cur][i] == w.lists[cur][if cur == slot && k <= i then i + 1 else i];
      assert Node(w'.entries, w'.lists[cur], i, cur, |w.lists|);
    }
  }

  lemma RemovesBounds<T>(w: View<T>, w': View<T>, t: Token, slot: nat, k: nat)
    requires Removes(w, w', t, slot, k) && w.Bounds() && w'.walking == w.walking
    ensures w'.Bounds()
  {
    hide Relinked;
    RemovesTicks(w, w', t, slot, k);
    UnlinkedIsLinked(w.entries, w.wheel, w.lists, t, slot, k);
    var cur := w.Slot();
    forall s, i | 0 <= s < |w'.lists| && 0 <= i < |w'.lists[s]| && (!w'.walking || s != cur || i < w'.at)
      ensures w'.wheel[s].nextTick <= w'.TickOf(w'.lists[s][i])
    {
      var i' := if s == slot && k <= i then i + 1 else i;
      assert w'.lists[s][i] == w.lists[s][i'];
      assert w.wheel[s].nextTick <= w.TickOf(w.lists[s][i']);
      assert Node(w'.entries, w'.lists[s], i, s, |w.lists|);
    }
  }

  lemma RemovesAbs<T>(w: View<T>, w': View<T>, t: Token, slot: nat, k: nat)
    requires Removes(w, w', t, slot, k) && w.Aged() && w'.Aged()
    ensures w'.Abs() == w.Abs().(live := Remove(w.Abs().live, t))
  {
    hide Linked, Relinked;
    RemovesTicks(w, w', t, slot, k);
  }

  lemma RemovesOk<T>(w: View<T>, w': View<T>, t: Token, slot: nat, k: nat)
    requires Removes(w, w', t, slot, k) && w.Ok() && w'.walking == w.walking
    ensures w'.Ok()
    ensures w'.Abs() == w.Abs().(live := Remove(w.Abs().live, t))
  {
    hide View.Spells, View.Cursor, View.Wakes, View.Aged, View.Bounds, View.Due, View.Ordered, View.Abs;
    RemovesSpells(w, w', t, slot, k);
    RemovesCursor(w, w', t, slot, k);
    RemovesAged(w, w', t, slot, k);
    RemovesOrdered(w, w', t, slot, k);
    RemovesDue(w, w', t, slot, k);
    RemovesBounds(w, w', t, slot, k);
    RemovesAbs(w, w', t, slot, k);
  }

  lemma RemovesSpells<T>(w: View<T>, w': View<T>, t: Token, slot: nat, k: nat)
    requires Removes(w, w', t, slot, k) && w.Wakes()
    ensures w'.Spells() && w'.Wakes()
  {
    UnlinkedIsLinked(w.entries, w.wheel, w.lists, t, slot, k);
  }

  function Prepended<T>(entries: map<Token, Entry<T>>, token: Token, tick: nat, state: T, head: Token)
    : map<Token, Entry<T>>
    requires head == EMPTY || head in entries
  {
    var e := entries[token := Entry(state, Links(tick, EMPTY, head))];
    if head == EMPTY then e else e[head := e[head].(links := e[head].links.(prev := token))]
  }

  /** A new entry at the head of its slot's list. */
  ghost predicate Inserts<T>(w: View<T>, w': View<T>, token: Token, tick: nat, state: T, slot: nat) {
    && w.Spells() && token !in w.entries && token < EMPTY && slot == SlotFor(tick, |w.lists|) && w.tick < tick
    && (w.wheel[slot].head == EMPTY || w.wheel[slot].head in w.entries)
    && w'.entries == Prepended(w.entries, token, tick, state, w.wheel[slot].head)
    && w'.wheel == w.wheel[slot := WheelEntry(Min(tick, w.wheel[slot].nextTick), token)]
    && w'.lists == w.lists[slot := [token] + w.lists[slot]]
    && w'.born == w.born[token := w.clock] && w'.clock == w.clock + 1
    && w'.tick == w.tick && w'.next == w.next && w'.walking == w.walking
    && w'.at == if slot == SlotFor(w.tick, |w.lists|) then w.at + 1 else w.at
  }

  lemma HeadExists<T>(entries: map<Token, Entry<T>>, wheel: seq<WheelEntry>, lists: seq<seq<Token>>, slot: nat)
    requires Linked(entries, wheel, lists) && slot < |lists|
    ensures wheel[slot].head == EMPTY || wheel[slot].head in entries
    ensures wheel[slot].head == EMPTY <==> lists[slot] == []
  {
    if lists[slot] != [] { assert Node(entries, lists[slot], 0, slot, |lists|); }
  }

  lemma InsertsTicks<T>(w: View<T>, w': View<T>, token: Token, tick: nat, state: T, slot: nat)
    requires Inserts(w, w', token, tick, state, slot)
    ensures w'.entries.Keys == w.entries.Keys + {token}
    ensures w'.TickOf(token) == tick && w'.entries[token].state == state
    ensures forall u :: u in w.entries ==> w'.TickOf(u) == w.TickOf(u) && w'.entries[u].state == w.entries[u].state
  {
  }

  lemma InsertsNode<T>(w: View<T>, w': View<T>, token: Token, tick: nat, state: T, slot: nat, s: nat, i: nat)
    requires Inserts(w, w', token, tick, state, slot) && s < |w.lists| && i < |w'.lists[s]|
    ensures Node(w'.entries, w'.lists[s], i, s, |w.lists|)
  {
    var j := if s == slot then i - 1 else i;
    if j >= 0 { assert Node(w.entries, w.lists[s], j, s, |w.lists|); }
    if w.lists[slot] != [] { assert Node(w.entries, w.lists[slot], 0, slot, |w.lists|); }
    HeadExists(w.entries, w.wheel, w.lists, slot);
  }

  lemma InsertsLinked<T>(w: View<T>, w': View<T>, token: Token, tick: nat, state: T, slot: nat)
    requires Inserts(w, w', token, tick, state, slot)
    ensures w'.Spells()
  {
    InsertsTicks(w, w', token, tick, state, slot);
    forall s | 0 <= s < |w'.lists|
      ensures Spelled(w'.entries, w'.lists[s], s, |w'.lists|) && Distinct(w'.lists[s])
      ensures w'.wheel[s].head == At(w'.lists[s], 0)
    {
      forall i | 0 <= i < |w'.lists[s]| ensures Node(w'.entries, w'.lists[s], i, s, |w.lists|) {
        InsertsNode(w, w', token, tick, state, slot, s, i);
      }
      forall i | 0 <= i < |w.lists[s]| ensures w.lists[s][i] != token {
        assert Node(w.entries, w.lists[s], i, s, |w.lists|);
      }
    }
    forall t | t in w'.entries ensures t < EMPTY && t in w'.lists[SlotFor(w'.entries[t].links.tick, |w'.lists|)] {
      if t == token { assert w'.lists[slot][0] == token; }
    }
  }

  lemma InsertsAged<T>(w: View<T>, w': View<T>, token: Token, tick: nat, state: T, slot: nat)
    requires Inserts(w, w', token, tick, state, slot) && w.Aged()
    ensures w'.Aged()
  {
    InsertsTicks(w, w', token, tick, state, slot);
  }

  lemma InsertedNewestFirst<T>(w: View<T>, w': View<T>, list: seq<Token>, token: Token)
    requires w.NewestFirst(list) && w'.born == w.born[token := w.clock]
    requires token !in list && forall i :: 0 <= i < |list| ==> list[i] in w.born && w.born[list[i]] < w.clock
    ensures w'.NewestFirst(list) && w'.NewestFirst([token] + list)
  {
    forall i, j | 0 <= i < j < |list| ensures w'.Newer(list[i], list[j]) { assert w.Newer(list[i], list[j]); }
    forall i, j | 0 <= i < j < |list| + 1 ensures w'.Newer(([token] + list)[i], ([token] + list)[j]) {
      assert i > 0 ==> w.Newer(list[i - 1], list[j - 1]);
    }
  }

  lemma InsertsOrdered<T>(w: View<T>, w': View<T>, token: Token, tick: nat, state: T, slot: nat)
    requires Inserts(w, w', token, tick, state, slot) && w.Aged() && w.Ordered()
    ensures w'.Ordered()
  {
    forall s | 0 <= s < |w'.lists| ensures w'.NewestFirst(w'.lists[s]) {
      forall i | 0 <= i < |w.lists[s]| ensures w.lists[s][i] in w.entries {
        assert Node(w.entries, w.lists[s], i, s, |w.lists|);
      }
      InsertedNewestFirst(w, w', w.lists[s], token);
    }
  }

  lemma InsertsDue<T>(w: View<T>, w': View<T>, token: Token, tick: nat, state: T, slot: nat)
    requires Inserts(w, w', token, tick, state, slot) && w.Due()
    ensures w'.Due()
  {
    InsertsTicks(w, w', token, tick, state, slot);
    var cur := w.Slot();
    forall i | 0 <= i < w'.at && i < |w'.lists[cur]| ensures w'.TickOf(w'.lists[cur][i]) != w'.tick {
      var j := if cur == slot then i - 1 else i;
      assert j >= 0 ==> w'.lists[cur][i] == w.lists[cur][j] && Node(w.entries, w.lists[cur], j, cur, |w.lists|);
    }
  }

  lemma InsertsBounds<T>(w: View<T>, w': View<T>, token: Token, tick: nat, state: T, slot: nat)
    requires Inserts(w, w', token, tick, state, slot) && w.Bounds()
    ensures w'.Bounds()
  {
    InsertsTicks(w, w', token, tick, state, slot);
    var cur := w.Slot();
    forall s, i | 0 <= s < |w'.lists| && 0 <= i < |w'.lists[s]| && (!w'.walking || s != cur || i < w'.at)
      ensures w'.wheel[s].nextTick <= w'.TickOf(w'.lists[s][i])
    {
      var j := if s == slot then i - 1 else i;
      assert j >= 0 ==> w'.lists[s][i] == w.lists[s][j] && Node(w.entries, w.lists[s], j, s, |w.lists|)
                        && w.wheel[s].nextTick <= w.TickOf(w.lists[s][j]);
    }
  }

  lemma InsertsAbs<T>(w: View<T>, w': View<T>, token: Token, tick: nat, state: T, slot: nat)
    requires Inserts(w, w', token, tick, state, slot) && w.Aged() && w'.Aged()
    ensures w'.Abs() == Model(w.Abs().live[token := Timeout(tick, w.clock, state)], w.tick, w.clock + 1)
  {
    hide Linked, Prepended;
    InsertsTicks(w, w', token, tick, state, slot);
  }

  lemma InsertsOk<T>(w: View<T>, w': View<T>, token: Token, tick: nat, state: T, slot: nat)
    requires Inserts(w, w', token, tick, state, slot) && w.Ok()
    ensures w'.Ok()
  {
    hide View.Bounds, View.Due, View.Ordered, View.Aged;
    InsertsLinked(w, w', token, tick, state, slot);
    InsertsAged(w, w', token, tick, state, slot);
    InsertsOrdered(w, w', token, tick, state, slot);
    InsertsDue(w, w', token, tick, state, slot);
    InsertsBounds(w, w', token, tick, state, slot);
  }

  lemma InsertsInRange<T>(w: View<T>, w': View<T>, token: Token, tick: nat, state: T, slot: nat)
    requires Inserts(w, w', token, tick, state, slot) && w.InRange() && tick <= TICK_MAX
    ensures w'.InRange()
  {
    InsertsTicks(w, w', token, tick, state, slot);
  }

  lemma RemovesInRange<T>(w: View<T>, w': View<T>, t: Token, slot: nat, k: nat)
    requires Removes(w, w', t, slot, k) && w.InRange()
    ensures w'.InRange()
  {
    RemovesTicks(w, w', t, slot, k);
  }

  /** As long as a timeout is live, the walk never reaches the end of time with nothing due. */
  lemma TimeRemains<T>(w: View<T>)
    requires w.Spells() && w.Cursor() && w.Due() && w.InRange() && w.next == EMPTY && w.entries != map[]
    ensures w.tick < TICK_MAX
  {
    NothingDueNow(w);
    var t :| t in w.entries;
  }

  lemma NothingDueNow<T>(w: View<T>)
    requires w.Spells() && w.Cursor() && w.Due() && w.next == EMPTY
    ensures w.at == |w.lists[w.Slot()]|
    ensures forall t :: t in w.entries ==> w.tick + 1 <= w.entries[t].links.tick
  {
    var cur := w.Slot();
    assert w.at < |w.lists[cur]| ==> Node(w.entries, w.lists[cur], w.at, cur, |w.lists|);
    forall t | t in w.entries ensures w.tick + 1 <= w.entries[t].links.tick {
      var own := SlotFor(w.entries[t].links.tick, |w.lists|);
      var i :| 0 <= i < |w.lists[own]| && w.lists[own][i] == t;
      assert own == cur ==> w.TickOf(w.lists[cur][i]) != w.tick;
    }
  }

  function Ticked<T>(w: View<T>, slot: nat): View<T>
    requires slot < |w.wheel|
  {
    w.(tick := w.tick + 1, next := w.wheel[slot].head, at := 0, walking := false,
       wheel := if w.wheel[slot].head == EMPTY then w.wheel[slot := w.wheel[slot].(nextTick := TICK_MAX)] else w.wheel)
  }

  function Entered<T>(w: View<T>, slot: nat): View<T>
    requires slot < |w.wheel|
  {
    w.(walking := true,
       wheel := if w.next == w.wheel[slot].head then w.wheel[slot := w.wheel[slot].(nextTick := TICK_MAX)] else w.wheel)
  }

  lemma TicksBounds<T>(w: View<T>, w': View<T>, slot: nat)
    requires w.Spells() && w.Bounds() && w.at == |w.lists[w.Slot()]| && slot < |w.lists|
    requires w' == Ticked(w, slot)
    ensures w'.Bounds()
  {
    hide Linked;
    HeadExists(w.entries, w.wheel, w.lists, slot);
    forall s, i | 0 <= s < |w.lists| && 0 <= i < |w.lists[s]|
      ensures w'.wheel[s].nextTick <= w'.TickOf(w'.lists[s][i])
    {
      assert w.wheel[s].nextTick <= w.TickOf(w.lists[s][i]);
    }
  }

  /** The walk of a slot is over: the tick moves on to the next slot. */
  lemma TicksOk<T>(w: View<T>, w': View<T>, slot: nat)
    requires w.Ok() && w.next == EMPTY && slot == SlotFor(w.tick + 1, |w.lists|)
    requires w' == Ticked(w, slot)
    ensures w'.Ok() && w'.Abs() == w.Abs().(tick := w.tick + 1)
  {
    hide View.Bounds, View.Ordered, View.Aged;
    SameEntries(w, w');
    NothingDueNow(w);
    TicksBounds(w, w', slot);
    if w'.wheel != w.wheel { RemembersSpells(w, w', slot, TICK_MAX); }
  }

  /** Only what a slot remembers changes. */
  lemma RemembersSpells<T>(w: View<T>, w': View<T>, slot: nat, nextTick: nat)
    requires w.Spells() && slot < |w.lists|
    requires w'.entries == w.entries && w'.lists == w.lists
    requires w'.wheel == w.wheel[slot := w.wheel[slot].(nextTick := nextTick)]
    ensures w'.Spells()
  {
  }

  lemma SkipsBounds<T>(w: View<T>, w': View<T>, slot: nat, nextTick: nat)
    requires w.Bounds() && slot == w.Slot() && w.at < |w.lists[slot]|
    requires nextTick <= w.wheel[slot].nextTick && nextTick <= w.TickOf(w.lists[slot][w.at])
    requires w'.entries == w.entries && w'.lists == w.lists && w'.tick == w.tick && w'.walking == w.walking
    requires w'.at == w.at + 1
    requires w'.wheel == w.wheel[slot := w.wheel[slot].(nextTick := nextTick)]
    ensures w'.Bounds()
  {
    forall s, i | 0 <= s < |w.lists| && 0 <= i < |w.lists[s]| && (!w.walking || s != slot || i < w.at + 1)
      ensures w'.wheel[s].nextTick <= w'.TickOf(w'.lists[s][i])
    {
      assert s != slot || i != w.at ==> w.wheel[s].nextTick <= w.TickOf(w.lists[s][i]);
    }
  }

  lemma SkipsDue<T>(w: View<T>, w': View<T>, slot: nat)
    requires w.Due() && slot == w.Slot() && w.at < |w.lists[slot]| && w.TickOf(w.lists[slot][w.at]) > w.tick
    requires w'.entries == w.entries && w'.lists == w.lists && w'.tick == w.tick && w'.at == w.at + 1
    ensures w'.Due()
  {
    forall i | 0 <= i < w.at + 1 && i < |w.lists[slot]| ensures w'.TickOf(w.lists[slot][i]) != w.tick {
      assert i < w.at ==> w.TickOf(w.lists[slot][i]) != w.tick;
    }
  }

  /** Passing an entry that is not due yet. */
  lemma SkipsOk<T>(w: View<T>, w': View<T>, slot: nat)
    requires w.Ok() && w.next in w.entries && slot == w.Slot() && w.TickOf(w.next) > w.tick
    requires w' == w.(wheel := w.wheel[slot := w.wheel[slot].(
                                 nextTick := Min(w.wheel[slot].nextTick, w.TickOf(w.next)))],
                      next := w.entries[w.next].links.next, at := w.at + 1)
    ensures w'.Ok() && w'.Abs() == w.Abs()
  {
    hide View.Bounds, View.Due, View.Ordered;
    CursorExists(w);
    RemembersSpells(w, w', slot, Min(w.wheel[slot].nextTick, w.TickOf(w.next)));
    SkipsBounds(w, w', slot, Min(w.wheel[slot].nextTick, w.TickOf(w.next)));
    SkipsDue(w, w', slot);
    SameEntries(w, w');
  }

  lemma CursorExists<T>(w: View<T>)
    requires w.Spells() && w.Cursor() && w.next in w.entries
    ensures w.at < |w.lists[w.Slot()]| && w.lists[w.Slot()][w.at] == w.next
    ensures w.entries[w.next].links.next == At(w.lists[w.Slot()], w.at + 1)
  {
    assert w.next < EMPTY;
    assert Node(w.entries, w.lists[w.Slot()], w.at, w.Slot(), |w.lists|);
  }

  lemma NewestFirstFrame<T>(w: View<T>, w': View<T>, list: seq<Token>)
    requires w.NewestFirst(list) && w'.born == w.born
    ensures w'.NewestFirst(list)
  {
    forall i, j | 0 <= i < j < |list| ensures w'.Newer(list[i], list[j]) { assert w.Newer(list[i], list[j]); }
  }

  lemma SameEntries<T>(w: View<T>, w': View<T>)
    requires w.Aged() && w.Ordered()
    requires w'.entries == w.entries && w'.lists == w.lists && w'.born == w.born && w'.clock == w.clock
    ensures w'.Aged() && w'.Ordered() && w'.Abs() == w.Abs().(tick := w'.tick)
  {
    forall s | 0 <= s < |w.lists| ensures w'.NewestFirst(w.lists[s]) {
      assert w.NewestFirst(w.lists[s]);
      NewestFirstFrame(w, w', w.lists[s]);
    }
  }

  lemma EntersBounds<T>(w: View<T>, w': View<T>, slot: nat)
    requires w.Bounds() && w.Cursor() && slot == w.Slot() && (w'.wheel == w.wheel || w.at == 0)
    requires w' == w.(walking := true, wheel := w'.wheel)
    requires w'.wheel == w.wheel || w'.wheel == w.wheel[slot := w.wheel[slot].(nextTick := TICK_MAX)]
    ensures w'.Bounds()
  {
    forall s, i | 0 <= s < |w.lists| && 0 <= i < |w.lists[s]| && (s != slot || i < w.at)
      ensures w'.wheel[s].nextTick <= w'.TickOf(w'.lists[s][i])
    {
      assert w.wheel[s].nextTick <= w.TickOf(w.lists[s][i]);
    }
  }

  /** Entering a slot at its head forgets the cached bound. */
  lemma EntersOk<T>(w: View<T>, w': View<T>, slot: nat)
    requires w.Ok() && w.next != EMPTY && slot == SlotFor(w.tick, |w.lists|)
    requires w' == Entered(w, slot)
    ensures w'.Ok() && w'.Abs() == w.Abs()
  {
    hide View.Bounds, View.Aged, View.Ordered;
    if w.next == w.wheel[slot].head { assert w.at == 0; }
    EntersBounds(w, w', slot);
    SameEntries(w, w');
    if w'.wheel != w.wheel { RemembersSpells(w, w', slot, TICK_MAX); }
  }

  /** The entry at the cursor, when due, is the least tick's newest. */
  lemma CursorIsFirst<T>(w: View<T>)
    requires w.Ok() && w.next in w.entries && w.TickOf(w.next) <= w.tick
    ensures First(w.Abs().live, w.next)
    ensures w.TickOf(w.next) == w.tick && w.at < |w.lists[w.Slot()]| && w.lists[w.Slot()][w.at] == w.next
  {
    var cur := w.Slot();
    assert w.at < |w.lists[cur]| && w.next < EMPTY;
    forall u | u in w.entries && u != w.next ensures Before(w.Abs().live[w.next], w.Abs().live[u]) {
      if w.entries[u].links.tick == w.tick {
        var i :| 0 <= i < |w.lists[cur]| && w.lists[cur][i] == u;
        assert w.NewestFirst(w.lists[cur]);
        assert i > w.at ==> w.Newer(w.lists[cur][w.at], w.lists[cur][i]);
      }
    }
  }

  /** The first timeout, due by `target`, is delivered. */
  ghost predicate FirstBy<T>(m: Model<T>, target: nat, state: T, m': Model<T>) {
    exists t :: First(m.live, t) && Delivers(m, t, target, state, m')
  }

  lemma FirstAlongTheWay<T>(m: Model<T>, walked: Model<T>, target: nat, state: T, m': Model<T>)
    requires walked.live == m.live && walked.clock == m.clock && walked.tick <= target
    requires FirstBy(walked, walked.tick, state, m')
    ensures FirstBy(m, target, state, m')
  {
    var t :| First(walked.live, t) && Delivers(walked, t, walked.tick, state, m');
    assert Delivers(m, t, target, state, m');
  }

  lemma FirstIsPolled<T>(m: Model<T>, target: nat, state: T, m': Model<T>)
    requires FirstBy(m, Max(target, m.tick), state, m')
    ensures Next(m, Poll(target, Some(state)), m')
  {
  }

  lemma NoneIsPolled<T>(m: Model<T>, target: nat, m': Model<T>)
    requires m' == m.(tick := Max(target, m.tick) + 1) && forall t :: t in m.live ==> m.live[t].tick >= m'.tick
    ensures Next(m, Poll(target, None), m')
  {
  }

  class Timer<T> {
    const tickMs: nat
    const slots: nat
    var entries: map<Token, Entry<T>>
    var wheel: seq<WheelEntry>
    var tick: nat
    var next: Token
    ghost var lists: seq<seq<Token>>
    ghost var born: map<Token, nat>
    ghost var clock: nat
    ghost var at: nat
    ghost var walking: bool

    ghost function Wheel(): View<T>
      reads this
    {
      View(entries, wheel, tick, next, lists, born, clock, at, walking)
    }

    ghost predicate Valid()
      reads this
    {
      tickMs > 0 && |lists| == slots && Wheel().InRange() && Wheel().Ok()
    }

    ghost function Abs(): Model<T>
      requires Valid()
      reads this
    {
      Wheel().Abs()
    }

    constructor (tickMs: nat, slots: nat)
      requires tickMs > 0 && slots > 0
      ensures Valid() && Abs() == Model(map[], 0, 0) && !walking
      ensures this.tickMs == tickMs && this.slots == slots
    {
      this.tickMs, this.slots := tickMs, slots;
      entries, wheel := map[], seq(slots, _ => WheelEntry(TICK_MAX, EMPTY));
      tick, next := 0, EMPTY;
      lists, born, clock, at, walking := seq(slots, _ => []), map[], 0, 0, false;
    }

    /** Sets a timeout for a time after the start. The slab chooses `key`, a vacant one. At the very
        end of time there is no tick ahead: the addition overflows, which ends the call. */
    method SetTimeoutAt(delayMs: nat, state: T, key: Token) returns (timeoutTick: Option<nat>)
      requires Valid() && key !in entries && key < EMPTY
      modifies this
      ensures Valid() && walking == old(walking)
      ensures timeoutTick == None <==> old(tick) == TICK_MAX
      ensures timeoutTick == None ==> Abs() == old(Abs())
      ensures timeoutTick.Some? ==>
                Next(old(Abs()), SetAt(DurationToTick(delayMs, tickMs), key, timeoutTick.value, state), Abs())
    {
      hide View.Bounds, View.Due, View.Ordered, View.Spells, View.Cursor, View.Wakes;
      var target := DurationToTick(delayMs, tickMs);
      TickFits(delayMs, tickMs);
      if target <= tick {
        if tick == TICK_MAX {
          return None;
        }
        target := tick + 1;
      }
      Insert(target, state, key);
      timeoutTick := Some(target);
    }

    method Insert(tick: nat, state: T, key: Token)
      requires Valid() && key !in entries && key < EMPTY && this.tick < tick <= TICK_MAX
      modifies this
      ensures Valid() && walking == old(walking)
      ensures Abs() == Model(old(Abs()).live[key := Timeout(tick, old(clock), state)], old(this.tick), old(clock) + 1)
    {
      ghost var w := Wheel();
      ghost var slot := SlotFor(tick, |wheel|);
      HeadExists(entries, wheel, lists, slot);
      Prepend(tick, state, key);
      InsertsOk(w, Wheel(), key, tick, state, slot);
      InsertsAbs(w, Wheel(), key, tick, state, slot);
      InsertsInRange(w, Wheel(), key, tick, state, slot);
    }

    /** A new entry becomes the head of its slot's list. */
    method Prepend(tick: nat, state: T, key: Token)
      requires Wheel().Spells() && key !in entries && key < EMPTY && this.tick < tick
      requires wheel[SlotFor(tick, |wheel|)].head == EMPTY || wheel[SlotFor(tick, |wheel|)].head in entries
      modifies this
      ensures Inserts(old(Wheel()), Wheel(), key, tick, state, SlotFor(tick, |old(wheel)|))
    {
      var slot := SlotFor(tick, |wheel|);
      var curr := wheel[slot];
      entries := entries[key := Entry(state, Links(tick, EMPTY, curr.head))];
      if curr.head != EMPTY {
        entries := entries[curr.head := entries[curr.head].(links := entries[curr.head].links.(prev := key))];
      }
      wheel := wheel[slot := WheelEntry(Min(tick, curr.nextTick), key)];
      at := if slot == SlotFor(this.tick, |lists|) then at + 1 else at;
      lists := lists[slot := [key] + lists[slot]];
      born, clock := born[key := clock], clock + 1;
    }

    method Unlink(links: Links, token: Token)
      requires |wheel| > 0
      requires links.prev == EMPTY || links.prev in entries
      requires links.next == EMPTY || links.next in entries
      modifies this`entries, this`wheel, this`next
      ensures entries == Relinked(old(entries), links)
      ensures wheel == Beheaded(old(wheel), SlotFor(links.tick, |old(wheel)|), links)
      ensures next == if token == old(next) then links.next else old(next)
    {
      if links.prev == EMPTY {
        var slot := SlotFor(links.tick, |wheel|);
        wheel := wheel[slot := wheel[slot].(head := links.next)];
      } else {
        entries := entries[links.prev := entries[links.prev].(links := entries[links.prev].links.(next := links.next))];
      }
      if links.next != EMPTY {
        entries := entries[links.next := entries[links.next].(links := entries[links.next].links.(prev := links.prev))];
        if token == next {
          next := links.next;
        }
      } else if token == next {
        next := EMPTY;
      }
    }

    method CancelTimeout(token: Token, timeoutTick: nat) returns (state: Option<T>)
      requires Valid()
      modifies this
      ensures Valid() && walking == old(walking)
      ensures Next(old(Abs()), Cancel(token, timeoutTick, state), Abs())
    {
      if token !in entries {
        return None;
      }
      var links := entries[token].links;
      if links.tick != timeoutTick {
        return None;
      }
      var s := Extract(token);
      state := Some(s);
    }

    method Drop(token: Token, ghost slot: nat, ghost k: nat)
      requires slot < |lists| && k < |lists[slot]|
      modifies this`entries, this`born, this`lists, this`at
      ensures entries == old(entries) - {token} && born == old(born) - {token}
      ensures lists == old(lists)[slot := Without(old(lists)[slot], k)]
      ensures at == if slot == SlotFor(tick, |old(lists)|) && k < old(at) then old(at) - 1 else old(at)
    {
      entries := entries - {token};
      at := if slot == SlotFor(tick, |lists|) && k < at then at - 1 else at;
      born, lists := born - {token}, lists[slot := Without(lists[slot], k)];
    }

    /** How many entries of the current slot the cursor has yet to look at. */
    ghost function Ahead(): nat
      requires Valid()
      reads this
    {
      if next == EMPTY then 0 else |lists[SlotFor(tick, |lists|)]| + 1 - at
    }

    /** The walk of a slot is over: on to the next tick. */
    method Tick()
      requires Valid() && next == EMPTY && tick < TICK_MAX
      modifies this`tick, this`next, this`wheel, this`at, this`walking
      ensures Valid() && Abs() == old(Abs()).(tick := old(tick) + 1) && !walking && tick == old(tick) + 1
    {
      ghost var w := Wheel();
      tick := tick + 1;
      var slot := SlotFor(tick, |wheel|);
      next := wheel[slot].head;
      at, walking := 0, false;
      if next == EMPTY {
        wheel := wheel[slot := wheel[slot].(nextTick := TICK_MAX)];
      }
      TicksOk(w, Wheel(), slot);
    }

    method Enter()
      requires Valid() && next != EMPTY
      modifies this`wheel, this`walking
      ensures Valid() && Abs() == old(Abs()) && walking && next in entries && Ahead() == old(Ahead())
    {
      hide View.Bounds, View.Due, View.Ordered, View.Aged;
      ghost var w := Wheel();
      var slot := SlotFor(tick, |wheel|);
      walking := true;
      if next == wheel[slot].head {
        wheel := wheel[slot := wheel[slot].(nextTick := TICK_MAX)];
      }
      EntersOk(w, Wheel(), slot);
      CursorInEntries(Wheel());
    }

    method Skip()
      requires Valid() && next in entries && entries[next].links.tick > tick
      modifies this`wheel, this`next, this`at
      ensures Valid() && Abs() == old(Abs()) && Ahead() < old(Ahead())
    {
      hide View.Bounds, View.Due, View.Ordered, View.Aged;
      ghost var w := Wheel();
      var slot := SlotFor(tick, |wheel|);
      wheel := wheel[slot := wheel[slot].(nextTick := Min(wheel[slot].nextTick, entries[next].links.tick))];
      next := entries[next].links.next;
      at := at + 1;
      SkipsOk(w, Wheel(), slot);
    }

    /** Takes a live entry out. */
    method Extract(token: Token) returns (state: T)
      requires Valid() && token in entries
      modifies this`entries, this`wheel, this`next, this`born, this`lists, this`at
      ensures Valid()
      ensures state == old(entries)[token].state
      ensures Abs() == old(Abs()).(live := Remove(old(Abs()).live, token))
    {
      ghost var w := Wheel();
      ghost var slot := SlotFor(entries[token].links.tick, |lists|);
      ghost var k := NeighboursExist(entries, wheel, lists, token);
      state := TakeOut(token, slot, k);
      RemovesOk(w, Wheel(), token, slot, k);
      RemovesInRange(w, Wheel(), token, slot, k);
    }

    method TakeOut(token: Token, ghost slot: nat, ghost k: nat) returns (state: T)
      requires Wheel().Spells() && token in entries && slot == SlotFor(entries[token].links.tick, |lists|)
      requires k < |lists[slot]| && lists[slot][k] == token
      requires entries[token].links.prev == EMPTY || entries[token].links.prev in entries
      requires entries[token].links.next == EMPTY || entries[token].links.next in entries
      modifies this`entries, this`wheel, this`next, this`born, this`lists, this`at
      ensures Removes(old(Wheel()), Wheel(), token, slot, k) && walking == old(walking)
      ensures state == old(entries)[token].state
    {
      RelinkedAt(entries, entries[token].links, token);
      Unlink(entries[token].links, token);
      state := entries[token].state;
      Drop(token, slot, k);
    }

    method Deliver() returns (state: T)
      requires Valid() && next in entries && entries[next].links.tick <= tick
      modifies this`entries, this`wheel, this`next, this`born, this`lists, this`at
      ensures Valid() && FirstBy(old(Abs()), tick, state, Abs())
    {
      ghost var m, first := Abs(), next;
      CursorIsFirst(Wheel());
      state := Extract(next);
      assert First(m.live, first) && Delivers(m, first, tick, state, Abs());
    }

    /** Looks at the entry at the cursor and delivers it if it is due. */
    method Visit() returns (state: Option<T>)
      requires Valid() && next != EMPTY
      modifies this`entries, this`wheel, this`next, this`born, this`lists, this`at, this`walking
      ensures Valid()
      ensures state == None ==> Abs() == old(Abs()) && Ahead() < old(Ahead())
      ensures state.Some? ==> FirstBy(old(Abs()), old(tick), state.value, Abs())
    {
      hide View.Bounds, View.Due, View.Ordered, View.Aged;
      Enter();
      if entries[next].links.tick <= tick {
        var s := Deliver();
        state := Some(s);
      } else {
        Skip();
        state := None;
      }
    }

    /** Walks the wheel up to and including `target`, or up to the first timeout that is due. With
        no timeout at all the walk to the end of time does not end well: its last addition
        overflows. */
    method Walk(target: nat) returns (state: Option<T>, fits: bool)
      requires Valid() && tick <= target <= TICK_MAX
      modifies this
      ensures Valid()
      ensures fits <==> target < TICK_MAX || old(Abs()).live != map[]
      ensures fits && state == None ==> !walking && Abs() == old(Abs()).(tick := target + 1)
      ensures state.Some? ==> FirstBy(old(Abs()), target, state.value, Abs())
      ensures !fits ==> state == None && Abs() == old(Abs()).(tick := TICK_MAX)
    {
      ghost var m := Abs();
      while tick <= target
        invariant Valid() && tick <= target + 1
        invariant Abs() == m.(tick := tick)
        invariant tick == target + 1 ==> !walking
        decreases target + 1 - tick, Ahead()
      {
        if next == EMPTY {
          if tick == TICK_MAX {
            if entries != map[] { TimeRemains(Wheel()); }
            return None, false;
          }
          Tick();
        } else {
          ghost var walked := Abs();
          state := Visit();
          if state.Some? {
            FirstAlongTheWay(m, walked, target, state.value, Abs());
            return state, true;
          }
        }
      }
      state, fits := None, true;
    }

    /** Delivers the first timeout that is due by `target`, if there is one. Afterwards every
        cached tick is a lower bound when there is none. */
    method PollTo(target: nat) returns (state: Option<T>, fits: bool)
      requires Valid() && target <= TICK_MAX
      modifies this
      ensures Valid()
      ensures fits <==> Max(target, old(tick)) < TICK_MAX || old(Abs()).live != map[]
      ensures fits ==> Next(old(Abs()), Poll(target, state), Abs())
      ensures fits && state == None ==> !walking
      ensures !fits ==> state == None && Abs() == old(Abs()).(tick := TICK_MAX)
    {
      hide View.Bounds, View.Spells, View.Cursor, View.Ordered;
      ghost var m := Abs();
      var targetTick := if target < tick then tick else target;
      state, fits := Walk(targetTick);
      if state.Some? {
        FirstIsPolled(m, target, state.value, Abs());
      } else if fits {
        DueIsAhead(Wheel());
        NoneIsPolled(m, target, Abs());
      }
    }

    /** The tick to wake up for: after a poll that delivered nothing, until the next one, it is no
        later than the tick of any timeout. In the middle of a walk that holds exactly if no entry
        that is still to be looked at is earlier than every cached tick. It is never 0. */
    method NextTick() returns (wakeup: nat)
      requires Valid()
      ensures wakeup == Wheel().NextTick() && 0 < wakeup
      ensures !walking ==> NoneBefore(Abs(), wakeup)
      ensures NoneBefore(Abs(), wakeup) <==> !Wheel().Overlooks()
    {
      hide View.InRange, View.Overlooks, View.Bounds, View.Due, View.Ordered, View.Abs, Least, Linked, SlotFor,
           NoneBefore;
      NextTickCovers(Wheel());
      if next != EMPTY {
        CursorInEntries(Wheel());
        var slot := SlotFor(entries[next].links.tick, |wheel|);
        if wheel[slot].nextTick == tick {
          return tick;
        }
      }
      wakeup := LeastCached();
    }

    method LeastCached() returns (least: nat)
      requires wheel != []
      ensures least == Least(wheel)
    {
      hide Least;
      least := wheel[0].nextTick;
      LeastStarts(wheel);
      for s := 1 to |wheel|
        invariant least == Least(wheel[..s])
      {
        LeastGrows(wheel, s);
        least := Min(least, wheel[s].nextTick);
      }
      assert wheel[..|wheel|] == wheel;
    }
  }

  lemma LeastStarts(wheel: seq<WheelEntry>)
    requires wheel != []
    ensures Least(wheel[..1]) == wheel[0].nextTick
  {
  }

  lemma LeastGrows(wheel: seq<WheelEntry>, s: nat)
    requires 0 < s < |wheel|
    ensures Least(wheel[..s + 1]) == Min(Least(wheel[..s]), wheel[s].nextTick)
  {
    assert wheel[..s + 1][..s] == wheel[..s];
  }

  lemma LeastIsEnough<T>(w: View<T>)
    requires w.Wakes() && w.wheel != []
    ensures w.NextTick() > 0
    ensures w.NextTick() == Least(w.wheel) || (w.NextTick() == w.tick && Least(w.wheel) <= w.tick)
  {
  }

  lemma OverlookedIsLive<T>(w: View<T>)
    requires w.Spells() && w.Wakes() && w.Due() && w.Bounds() && w.Overlooks()
    ensures w.walking && exists t :: t in w.entries && w.entries[t].links.tick < w.NextTick()
  {
    LeastIsEnough(w);
    var cur := w.Slot();
    var i :| w.at <= i < |w.lists[cur]| && w.TickOf(w.lists[cur][i]) < Least(w.wheel);
    assert Node(w.entries, w.lists[cur], i, cur, |w.lists|);
    assert Least(w.wheel) <= w.wheel[cur].nextTick;
    var t := w.lists[cur][i];
    assert t in w.entries && w.entries[t].links.tick < w.NextTick();
  }

  lemma NotOverlooked<T>(w: View<T>, t: Token)
    requires w.Spells() && w.Wakes() && w.Due() && w.Bounds() && !w.Overlooks() && t in w.entries
    ensures w.NextTick() <= w.entries[t].links.tick
  {
    LeastIsEnough(w);
    var cur, s := w.Slot(), SlotFor(w.entries[t].links.tick, |w.lists|);
    var i :| 0 <= i < |w.lists[s]| && w.lists[s][i] == t;
    assert Least(w.wheel) <= w.wheel[s].nextTick;
    assert s == cur && i >= w.at ==> Least(w.wheel) <= w.TickOf(w.lists[cur][i]);
    assert s != cur || i < w.at ==> w.wheel[s].nextTick <= w.TickOf(w.lists[s][i]);
  }

  /** What the next tick promises, exactly. */
  lemma NextTickCovers<T>(w: View<T>)
    requires w.Ok()
    ensures w.NextTick() > 0 && |w.wheel| > 0 && w.Spells() && w.Cursor() && (w.next == EMPTY ==> w.next !in w.entries)
    ensures !w.walking ==> !w.Overlooks()
    ensures NoneBefore(w.Abs(), w.NextTick()) <==> !w.Overlooks()
  {
    hide View.Ordered;
    LeastIsEnough(w);
    if w.Overlooks() {
      OverlookedIsLive(w);
      var t :| t in w.entries && w.entries[t].links.tick < w.NextTick();
      assert t in w.Abs().live;
    } else {
      forall t | t in w.entries ensures w.NextTick() <= w.TickOf(t) { NotOverlooked(w, t); }
    }
  }

  lemma CursorInEntries<T>(w: View<T>)
    requires w.Spells() && w.Cursor() && w.next != EMPTY
    ensures w.next in w.entries && w.at < |w.lists[w.Slot()]|
  {
    assert Node(w.entries, w.lists[w.Slot()], w.at, w.Slot(), |w.lists|);
  }

  lemma DueIsAhead<T>(w: View<T>)
    requires w.Ok()
    ensures forall t :: t in w.entries ==> w.Abs().live[t].tick >= w.tick
  {
  }

  // ---- Time ----

  datatype Duration = Duration(secs: nat, nanos: nat)

  function Saturated(a: nat): nat { if a > TICK_MAX then TICK_MAX else a }

  /** Milliseconds, rounded up and saturating. */
  function Millis(d: Duration): nat {
    Saturated(Saturated(d.secs * 1000) + (d.nanos + 999_999) / 1_000_000)
  }

  function DurationToTick(ms: nat, tickMs: nat): nat
    requires tickMs > 0
  {
    Saturated(ms + tickMs / 2) / tickMs
  }

  lemma TickFits(ms: nat, tickMs: nat)
    requires tickMs > 0
    ensures DurationToTick(ms, tickMs) <= TICK_MAX
  {
    DivisionBounds(Saturated(ms + tickMs / 2), tickMs);
  }

  lemma DivisionBounds(a: nat, b: nat)
    requires b > 0
    ensures a / b * b <= a < a / b * b + b
  {
    assert a == a / b * b + a % b;
  }

  lemma DivisionMonotone(a: nat, b: nat, c: nat)
    requires a <= b && c > 0
    ensures a / c <= b / c
  {
    var q, p := a / c, b / c;
    DivisionBounds(a, c);
    DivisionBounds(b, c);
    assert q >= p + 1 ==> q * c >= (p + 1) * c;
  }

  predicate NoLater(a: Duration, b: Duration) { a.secs < b.secs || (a.secs == b.secs && a.nanos <= b.nanos) }

  /** A later moment is at no earlier tick, so a poll at or after the moment a timeout was set for
      reaches the timeout's tick. */
  lemma LaterIsNoEarlierTick(a: Duration, b: Duration, tickMs: nat)
    requires tickMs > 0 && NoLater(a, b) && a.nanos < 1_000_000_000 && b.nanos < 1_000_000_000
    ensures DurationToTick(Millis(a), tickMs) <= DurationToTick(Millis(b), tickMs)
  {
    assert Millis(a) <= Millis(b);
    DivisionMonotone(Saturated(Millis(a) + tickMs / 2), Saturated(Millis(b) + tickMs / 2), tickMs);
  }

  /** A moment's tick is the closest one: its own time is at most half a tick away. */
  lemma TickIsClosest(ms: nat, tickMs: nat)
    requires tickMs > 0 && ms + tickMs / 2 <= TICK_MAX
    ensures 2 * DurationToTick(ms, tickMs) * tickMs <= 2 * ms + tickMs
    ensures 2 * ms <= 2 * DurationToTick(ms, tickMs) * tickMs + tickMs
  {
    DivisionBounds(ms + tickMs / 2, tickMs);
  }

  /** A poll that reaches a timeout's tick comes less than a tick before its moment. */
  lemma FiresLessThanATickEarly(due: nat, now: nat, tickMs: nat)
    requires tickMs > 0 && due + tickMs / 2 <= TICK_MAX && now + tickMs / 2 <= TICK_MAX
    requires DurationToTick(due, tickMs) <= DurationToTick(now, tickMs)
    ensures due < now + tickMs
  {
    var s, n := DurationToTick(due, tickMs), DurationToTick(now, tickMs);
    DivisionBounds(due + tickMs / 2, tickMs);
    DivisionBounds(now + tickMs / 2, tickMs);
    assert n * tickMs == s * tickMs + (n - s) * tickMs;
    assert (n - s) * tickMs >= 0;
  }
}
