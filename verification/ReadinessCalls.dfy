/** The calls of the handles when no other thread steps in: what `set_readiness`, `update` and the
    drop of a registration come to, and that a poll then reports it. */
module ReadinessCalls {
  import Q = MpscQueue
  import P = QueueProgress
  import opened ReadinessNodes
  import opened ReadinessSteps
  import opened ReadinessRuns
  import opened ReadinessEvents
  import opened ReadinessDelivery

  /** Thread `t` alone goes from `s` to `s'` in `k` steps. */
  predicate Works(s: State, s': State, t: nat, k: nat)
    decreases k
  {
    if k == 0 then s' == s else Enabled(s, Thread(t)) && Works(Apply(s, Thread(t)), s', t, k - 1)
  }

  lemma {:induction false} WorksOn(s: State, s1: State, s2: State, t: nat, j: nat, k: nat)
    requires Works(s, s1, t, j) && Works(s1, s2, t, k)
    ensures Works(s, s2, t, j + k)
    decreases j
  {
    hide Apply;
    if j > 0 { WorksOn(Apply(s, Thread(t)), s1, s2, t, j - 1, k); }
  }

  lemma WorksOne(s: State, t: nat)
    requires Inv(s) && t in s.ops
    ensures Enabled(s, Thread(t)) && CanStep(s, t) && Inv(Apply(s, Thread(t)))
    ensures Works(s, Apply(s, Thread(t)), t, 1)
  {
    hide Inv, CanStep;
    StepsAreDefined(s);
    StepInv(s, Thread(t));
    hide Apply;
    assert Works(Apply(s, Thread(t)), Apply(s, Thread(t)), t, 0);
  }

  /** Nothing but thread `t`'s own affairs and the nodes is different. */
  ghost predicate Aside(s: State, s': State, t: nat) {
    && s'.closing == s.closing && s'.cons == s.cons && s'.events == s.events && s'.q.out == s.q.out
    && OthersKept(s.q, s'.q, Q.Producer(t)) && s'.nodes.Keys == s.nodes.Keys && s'.ops - {t} == s.ops - {t}
  }

  /** Node `n` becomes `d`, but for its owner, and the others stay as they are. */
  predicate Becomes(s: State, s': State, n: nat, d: Node) {
    forall m :: m in s.nodes && m in s'.nodes ==> Bare(s'.nodes[m]) == if m == n then Bare(d) else Bare(s.nodes[m])
  }

  lemma AsideOn(s: State, s1: State, s2: State, t: nat)
    requires Aside(s, s1, t) && Aside(s1, s2, t)
    ensures Aside(s, s2, t)
    ensures SameCells(s, s1) && SameCells(s1, s2) ==> SameCells(s, s2)
  {
  }

  lemma BecomesOn(s: State, s1: State, s2: State, n: nat, d: Node)
    requires s1.nodes.Keys == s.nodes.Keys == s2.nodes.Keys && Becomes(s, s1, n, d) && SameCells(s1, s2)
    ensures Becomes(s, s2, n, d)
  {
  }

  lemma BecomesBare(s: State, s': State, n: nat, d: Node, d': Node)
    requires Becomes(s, s', n, d) && Bare(d) == Bare(d')
    ensures Becomes(s, s', n, d')
  {
  }

  /** Thread `t` changes its node to `d` and goes on with `op`, and that is all. */
  predicate Turns(s: State, s': State, t: nat, n: nat, d: Node, op: Op) {
    s' == s.(nodes := s.nodes[n := d], ops := s.ops[t := op])
  }

  lemma TurnsOn(s: State, s1: State, s2: State, t: nat, n: nat, d1: Node, op1: Op, d2: Node, op2: Op)
    requires Turns(s, s1, t, n, d1, op1) && Turns(s1, s2, t, n, d2, op2)
    ensures Turns(s, s2, t, n, d2, op2)
  {
    assert s.nodes[n := d1][n := d2] == s.nodes[n := d2] && s.ops[t := op1][t := op2] == s.ops[t := op2];
  }

  lemma TurnsAside(s: State, s': State, t: nat, n: nat, d: Node, op: Op)
    requires t in s.ops && n in s.nodes && Turns(s, s', t, n, d, op)
    ensures Aside(s, s', t) && Becomes(s, s', n, d) && Waiting(s') == Waiting(s)
    ensures s'.ops - {t} == s.ops - {t}
  {
  }

  lemma ReturnsAside(s: State, s': State, t: nat, n: nat, d: Node)
    requires t in s.ops && n in s.nodes && s' == s.(nodes := s.nodes[n := d], ops := s.ops - {t})
    ensures Aside(s, s', t) && Becomes(s, s', n, d) && Waiting(s') == Waiting(s)
  {
  }

  // ----- pushing -----

  lemma PushingStep(s: State, t: nat)
    requires t in s.ops && s.ops[t].Pushing? && CanStep(s, t) && Unopposed(s.q, Q.Producer(t))
    ensures var s', op, p := StepPushing(s, t), s.ops[t], s.q.pushes[Q.Producer(t)];
            && s'.closing == s.closing && s'.cons == s.cons && s'.events == s.events
            && s'.nodes.Keys == s.nodes.Keys && SameCells(s, s')
            && s'.q == (if p.Pushed? then Q.Finish(s.q, Q.Producer(t)) else Q.StepPush(s.q, Q.Producer(t)))
            && s'.ops == if p.Pushed? then AfterPush(s, t, op.n, op.h, op.dropping).ops else s.ops
  {
    hide Q.StepPush, Q.Finish;
  }

  /** What a push leads to. */
  ghost predicate Pushes(s: State, s': State, t: nat) {
    && Aside(s, s', t) && SameCells(s, s')
    && s'.q.log + ToLog(s'.q, Q.Producer(t)) == s.q.log + ToLog(s.q, Q.Producer(t))
  }

  lemma PushingGoesOn(s: State, t: nat)
    requires Inv(s) && t in s.ops && s.ops[t].Pushing? && !s.closing && Unopposed(s.q, Q.Producer(t))
    ensures Enabled(s, Thread(t))
    ensures var s', op, u := Apply(s, Thread(t)), s.ops[t], Q.Producer(t);
            && Inv(s') && Pushes(s, s', t)
            && if s.q.pushes[u].Pushed?
               then s'.ops == AfterPush(s, t, op.n, op.h, op.dropping).ops && u !in s'.q.pushes
               else s'.ops == s.ops && Unopposed(s'.q, u) && PushesLeft(s'.q.pushes[u]) < PushesLeft(s.q.pushes[u])
  {
    hide Inv, StepPushing, Q.StepPush, Q.Finish, PushesLeft, SameCells, ToLog, OthersKept, CanStep;
    OpenHead(s);
    WorksOne(s, t);
    PushingStep(s, t);
    if s.q.pushes[Q.Producer(t)].Pushed? {
      OwnPushEnds(s.q, Q.Producer(t));
    } else {
      OwnPushGoesOn(s.q, Q.Producer(t));
    }
  }

  lemma {:induction false} PushingComesBack(s: State, t: nat) returns (s': State, k: nat)
    requires Inv(s) && t in s.ops && s.ops[t].Pushing? && !s.closing && Unopposed(s.q, Q.Producer(t))
    ensures k <= PushesLeft(s.q.pushes[Q.Producer(t)]) + 1 && Works(s, s', t, k) && Inv(s')
    ensures Aside(s, s', t) && SameCells(s, s') && s'.q.log == s.q.log + ToLog(s.q, Q.Producer(t))
    ensures s'.ops == AfterPush(s, t, s.ops[t].n, s.ops[t].h, s.ops[t].dropping).ops
    decreases PushesLeft(s.q.pushes[Q.Producer(t)])
  {
    hide Inv, Apply, Enabled, SameCells, OthersKept;
    PushingGoesOn(s, t);
    var s1 := Apply(s, Thread(t));
    if s.q.pushes[Q.Producer(t)].Pushed? {
      s', k := s1, 1;
      assert Works(s', s', t, 0);
    } else {
      var j;
      s', j := PushingComesBack(s1, t);
      k := j + 1;
      AsideOn(s, s1, s', t);
    }
  }

  lemma EnqueueStep(s: State, t: nat)
    requires t in s.ops && s.ops[t].Enqueue? && CanStep(s, t) && s.nodes[s.ops[t].n].associated
    ensures var s', op, u := StepOp(s, t), s.ops[t], Q.Producer(t);
            && s' == s.(q := s'.q, ops := s.ops[t := Pushing(op.n, op.h, op.dropping)])
            && Unopposed(s'.q, u) && PushesLeft(s'.q.pushes[u]) == 4 && ToLog(s'.q, u) == [op.n]
            && s'.q.log == s.q.log && s'.q.out == s.q.out && OthersKept(s.q, s'.q, u)
  {
  }

  /** A thread that owes the push of its node gets it into the queue, as the last one waiting. */
  lemma EnqueueComesBack(s: State, t: nat) returns (s': State, k: nat)
    requires Inv(s) && t in s.ops && s.ops[t].Enqueue? && !s.closing && s.ops[t].n in s.nodes
    requires s.nodes[s.ops[t].n].associated
    ensures k <= 6 && Works(s, s', t, k) && Inv(s') && Aside(s, s', t) && SameCells(s, s')
    ensures Waiting(s') == Waiting(s) + [s.ops[t].n]
    ensures s'.ops == if s.ops[t].dropping then s.ops[t := DropHandle(s.ops[t].n, s.ops[t].h)] else s.ops - {t}
  {
    hide Inv, StepOp, StepPushing, SameCells, OthersKept, Waiting, CanStep, PushesLeft, ToLog, Unopposed, Works;
    WorksOne(s, t);
    EnqueueStep(s, t);
    var s1 := Apply(s, Thread(t));
    var j;
    s', j := PushingComesBack(s1, t);
    WorksOn(s, s1, s', t, 1, j);
    k := 1 + j;
    BeginsAside(s, s1, t);
    AsideOn(s, s1, s', t);
    WaitingIs(s);
    WaitingIs(s');
    GrowsBy(s.q.out, Waiting(s), [s.ops[t].n], Waiting(s'));
    EndsOps(s.ops, t, Pushing(s.ops[t].n, s.ops[t].h, s.ops[t].dropping), DropHandle(s.ops[t].n, s.ops[t].h));
  }

  lemma BeginsAside(s: State, s': State, t: nat)
    requires s' == s.(q := s'.q, ops := s'.ops) && s'.ops - {t} == s.ops - {t}
    requires s'.q.out == s.q.out && OthersKept(s.q, s'.q, Q.Producer(t))
    ensures Aside(s, s', t) && SameCells(s, s')
  {
  }

  lemma EndsOps(ops: map<nat, Op>, t: nat, a: Op, b: Op)
    requires t in ops
    ensures ops[t := a] - {t} == ops - {t} && ops[t := a][t := b] == ops[t := b]
  {
  }

  lemma GrowsBy(out: seq<nat>, ids: seq<nat>, more: seq<nat>, ids': seq<nat>)
    requires out + ids + more == out + ids'
    ensures ids' == ids + more
  {
    assert ids' == (out + ids')[|out|..] == (out + (ids + more))[|out|..];
  }

  // ----- `set_readiness` -----

  /** The node once the call has gone through. */
  function SetDown(d: Node, r: Ready): Node {
    d.(word := d.word.(ready := r, queued := d.word.queued || r * d.word.interest != {}))
  }

  /** The call has something to report that nobody else is in charge of. */
  predicate NeedsQueue(d: Node, r: Ready) { !d.word.queued && r * d.word.interest != {} }

  lemma SetLoadStep(s: State, t: nat)
    requires t in s.ops && s.ops[t].SetLoad? && CanStep(s, t)
    ensures var op := s.ops[t];
            Apply(s, Thread(t)) == s.(ops := s.ops[t := SetCas(op.n, op.h, op.ready, s.nodes[op.n].word)])
  {
  }

  lemma SetCasStep(s: State, t: nat)
    requires t in s.ops && s.ops[t].SetCas? && CanStep(s, t) && s.ops[t].seen == s.nodes[s.ops[t].n].word
    ensures var s', op, d := Apply(s, Thread(t)), s.ops[t], s.nodes[s.ops[t].n];
            if d.word.dropped then s' == s.(ops := s.ops - {t})
            else if NeedsQueue(d, op.ready)
              then Turns(s, s', t, op.n, SetDown(d, op.ready).(owner := By(t)), Enqueue(op.n, op.h, false))
            else s' == s.(nodes := s.nodes[op.n := SetDown(d, op.ready)], ops := s.ops - {t})
  {
    QueuedOnly(s.ops[t].seen.(ready := s.ops[t].ready));
    hide SetQueuedIfReady;
  }

  lemma StaysAssociated(s: State, t: nat)
    requires Inv(s) && t in s.ops && s.ops[t].Enqueue? && !s.ops[t].dropping
    ensures s.ops[t].n in s.nodes && s.nodes[s.ops[t].n].associated
  {
    assert OpOk(s, t);
  }

  /** The thread gets its node into the queue, having changed it. */
  lemma TurnedComesBack(s: State, s1: State, t: nat, n: nat, d: Node, h: nat, dropping: bool)
    returns (s': State, k: nat)
    requires t in s.ops && n in s.nodes && Inv(s1) && !s1.closing && d.associated
    requires Turns(s, s1, t, n, d, Enqueue(n, h, dropping))
    ensures k <= 6 && Works(s1, s', t, k) && Inv(s') && Aside(s, s', t) && Becomes(s, s', n, d)
    ensures Waiting(s') == Waiting(s) + [n]
    ensures s'.ops == if dropping then s.ops[t := DropHandle(n, h)] else s.ops - {t}
  {
    hide Inv, Waiting, SameCells, OthersKept, Works, Becomes;
    s', k := EnqueueComesBack(s1, t);
    TurnsAside(s, s1, t, n, d, Enqueue(n, h, dropping));
    AsideOn(s, s1, s', t);
    BecomesOn(s, s1, s', n, d);
    EndsOps(s.ops, t, s1.ops[t], DropHandle(n, h));
  }

  /** A `set_readiness` that nobody disturbs is over after at most eight steps. On a dropped node it
      does nothing. Otherwise the node has just that readiness; if that is of interest its queued bit
      is set, and the node waits in the queue as the last one if the bit was not set before. */
  lemma SetAlone(s: State, t: nat) returns (s': State, k: nat)
    requires Inv(s) && t in s.ops && s.ops[t].SetLoad? && !s.closing
    ensures k <= 8 && Works(s, s', t, k) && Inv(s') && Aside(s, s', t) && s'.ops == s.ops - {t}
    ensures s.ops[t].n in s.nodes
    ensures var n, r, d := s.ops[t].n, s.ops[t].ready, s.nodes[s.ops[t].n];
            && Becomes(s, s', n, if d.word.dropped then d else SetDown(d, r))
            && Waiting(s') == Waiting(s) + if !d.word.dropped && NeedsQueue(d, r) then [n] else []
  {
    hide Inv, Apply, Enabled, Works, Waiting, OthersKept, SetDown, NeedsQueue, Aside, Becomes;
    WorksOne(s, t);
    SetLoadStep(s, t);
    var s1, op, d := Apply(s, Thread(t)), s.ops[t], s.nodes[s.ops[t].n];
    WorksOne(s1, t);
    SetCasStep(s1, t);
    var s2 := Apply(s1, Thread(t));
    WorksOn(s, s1, s2, t, 1, 1);
    SameAgain(s, op.n);
    EndsOps(s.ops, t, s1.ops[t], Enqueue(op.n, op.h, false));
    if t in s2.ops {
      StaysAssociated(s2, t);
      var j;
      s', j := TurnedComesBack(s, s2, t, op.n, s2.nodes[op.n], op.h, false);
      k := 2 + j;
      WorksOn(s, s2, s', t, 2, j);
      BecomesBare(s, s', op.n, s2.nodes[op.n], SetDown(d, op.ready));
    } else {
      s', k := s2, 2;
      ReturnsAside(s, s2, t, op.n, s2.nodes[op.n]);
    }
  }

  // ----- `update` -----

  /** A node that has no queue yet gets this one, which counts as a user from then on. */
  function Attached(d: Node): Node {
    if d.associated then d else d.(associated := true, refs := d.refs + 1, qref := Held)
  }

  predicate Sized(d: Node) { |d.slots| == 3 && d.word.rd < 3 && d.word.wr < 3 }

  /** The slot the token goes to: the published one if it holds that token already. */
  function SlotFor(d: Node, token: nat): (pos: nat)
    requires Sized(d)
    ensures pos < 3
  {
    if token != d.slots[d.word.wr] then NextTokenPos(d.word.rd, d.word.wr) else d.word.wr
  }

  /** The node with a new registration. */
  function Registered(d: Node, a: Args): Node
    requires Sized(d)
  {
    var pos := SlotFor(d, a.token);
    d.(slots := d.slots[pos := a.token], tokens := d.tokens + [a.token],
       word := d.word.(wr := pos, interest := a.interest, edge := a.edge, oneshot := a.oneshot,
                       queued := d.word.queued || d.word.ready * a.interest != {}))
  }

  /** The call finds the node ready as far as it is of interest now, and nobody is in charge of that. */
  predicate FindsReady(d: Node, a: Args) { !d.word.queued && d.word.ready * a.interest != {} }

  lemma UpdClaimStep(s: State, t: nat)
    requires t in s.ops && s.ops[t].UpdClaim? && CanStep(s, t)
    ensures var op, d := s.ops[t], s.nodes[s.ops[t].n];
            if d.associated then Turns(s, Apply(s, Thread(t)), t, op.n, d, UpdLock(op.n, op.h, op.args))
            else Turns(s, Apply(s, Thread(t)), t, op.n, d.(associated := true, qref := Claimed(t)),
                       UpdCount(op.n, op.h, op.args))
  {
    SameAgain(s, s.ops[t].n);
  }

  lemma SameAgain(s: State, n: nat)
    requires n in s.nodes
    ensures s.nodes[n := s.nodes[n]] == s.nodes
  {
  }

  lemma UpdCountStep(s: State, t: nat)
    requires t in s.ops && s.ops[t].UpdCount? && CanStep(s, t)
    ensures var op, d := s.ops[t], s.nodes[s.ops[t].n];
            Turns(s, Apply(s, Thread(t)), t, op.n, d.(refs := d.refs + 1, qref := Held), UpdLock(op.n, op.h, op.args))
  {
  }

  lemma UpdateAttaches(s: State, t: nat) returns (s': State, k: nat)
    requires Inv(s) && t in s.ops && s.ops[t].UpdClaim?
    ensures k <= 2 && Works(s, s', t, k) && Inv(s') && s.ops[t].n in s.nodes
    ensures var op := s.ops[t]; Turns(s, s', t, op.n, Attached(s.nodes[op.n]), UpdLock(op.n, op.h, op.args))
  {
    hide Inv, Apply, Enabled, Works;
    WorksOne(s, t);
    UpdClaimStep(s, t);
    var s1, op, d := Apply(s, Thread(t)), s.ops[t], s.nodes[s.ops[t].n];
    if d.associated {
      s', k := s1, 1;
    } else {
      WorksOne(s1, t);
      UpdCountStep(s1, t);
      s', k := Apply(s1, Thread(t)), 2;
      WorksOn(s, s1, s', t, 1, 1);
      TurnsOn(s, s1, s', t, op.n, s1.nodes[op.n], s1.ops[t], Attached(d), UpdLock(op.n, op.h, op.args));
    }
  }

  lemma UpdLockStep(s: State, t: nat)
    requires t in s.ops && s.ops[t].UpdLock? && CanStep(s, t)
    ensures var op, d := s.ops[t], s.nodes[s.ops[t].n];
            if d.lock.LockedBy? then Apply(s, Thread(t)) == s.(ops := s.ops - {t})
            else Turns(s, Apply(s, Thread(t)), t, op.n, d.(lock := LockedBy(t)), UpdLoad(op.n, op.h, op.args))
  {
  }

  lemma UpdLoadStep(s: State, t: nat)
    requires t in s.ops && s.ops[t].UpdLoad? && CanStep(s, t)
    ensures var op, d := s.ops[t], s.nodes[s.ops[t].n];
            var pos := SlotFor(d, op.args.token);
            Turns(s, Apply(s, Thread(t)), t, op.n, d,
                  if op.args.token != d.slots[d.word.wr] then UpdWrite(op.n, op.h, op.args, d.word, pos)
                  else UpdCas(op.n, op.h, op.args, d.word, pos))
  {
    SameAgain(s, s.ops[t].n);
  }

  lemma UpdWriteStep(s: State, t: nat)
    requires t in s.ops && s.ops[t].UpdWrite? && CanStep(s, t)
    ensures var op, d := s.ops[t], s.nodes[s.ops[t].n];
            Turns(s, Apply(s, Thread(t)), t, op.n, d.(slots := d.slots[op.pos := op.args.token]),
                  UpdCas(op.n, op.h, op.args, op.seen, op.pos))
  {
  }

  /** Under the lock, the token is in its slot before the word is exchanged. */
  lemma UpdateWrites(s: State, t: nat) returns (s': State, k: nat)
    requires Inv(s) && t in s.ops && s.ops[t].UpdLoad?
    ensures k <= 2 && Works(s, s', t, k) && Inv(s') && s.ops[t].n in s.nodes && Sized(s.nodes[s.ops[t].n])
    ensures var op, d := s.ops[t], s.nodes[s.ops[t].n];
            var pos := SlotFor(d, op.args.token);
            Turns(s, s', t, op.n, d.(slots := d.slots[pos := op.args.token]),
                  UpdCas(op.n, op.h, op.args, d.word, pos))
  {
    hide Inv, Apply, Enabled, Works, NextTokenPos;
    WorksOne(s, t);
    UpdLoadStep(s, t);
    var s1, op, d := Apply(s, Thread(t)), s.ops[t], s.nodes[s.ops[t].n];
    if op.args.token != d.slots[d.word.wr] {
      WorksOne(s1, t);
      UpdWriteStep(s1, t);
      s', k := Apply(s1, Thread(t)), 2;
      WorksOn(s, s1, s', t, 1, 1);
      TurnsOn(s, s1, s', t, op.n, d, s1.ops[t], s'.nodes[op.n], s'.ops[t]);
    } else {
      s', k := s1, 1;
      assert d.slots[d.word.wr := op.args.token] == d.slots;
    }
  }

  lemma UpdCasStep(s: State, t: nat)
    requires t in s.ops && s.ops[t].UpdCas? && CanStep(s, t) && s.ops[t].seen == s.nodes[s.ops[t].n].word
    ensures var s', op, d := Apply(s, Thread(t)), s.ops[t], s.nodes[s.ops[t].n];
            var owes := FindsReady(d, op.args);
            Turns(s, s', t, op.n,
              d.(word := d.word.(wr := op.pos, interest := op.args.interest, edge := op.args.edge,
                                 oneshot := op.args.oneshot,
                                 queued := d.word.queued || d.word.ready * op.args.interest != {}),
                 owner := if owes then By(t) else d.owner, tokens := d.tokens + [op.args.token]),
              UpdUnlock(op.n, op.h, owes))
  {
    var op := s.ops[t];
    QueuedOnly(op.seen.(wr := op.pos, interest := op.args.interest, edge := op.args.edge, oneshot := op.args.oneshot));
    hide SetQueuedIfReady;
  }

  lemma UpdUnlockStep(s: State, t: nat)
    requires t in s.ops && s.ops[t].UpdUnlock? && CanStep(s, t)
    ensures var s', op, d := Apply(s, Thread(t)), s.ops[t], s.nodes[s.ops[t].n].(lock := Unlocked);
            if op.owes then Turns(s, s', t, op.n, d, Enqueue(op.n, op.h, false))
            else s' == s.(nodes := s.nodes[op.n := d], ops := s.ops - {t})
  {
  }

  lemma KnownNode(s: State, t: nat)
    requires Inv(s) && t in s.ops
    ensures s.ops[t].n in s.nodes && Sized(s.nodes[s.ops[t].n])
  {
    assert OpOk(s, t) && NodeOk(s, s.ops[t].n);
  }

  lemma AttachedKeeps(d: Node, a: Args, t: nat)
    requires Sized(d)
    ensures var d1 := Attached(d);
            && d1.associated && d1.lock == d.lock && Sized(d1) && d1.word == d.word && d1.slots == d.slots
            && SlotFor(d1, a.token) == SlotFor(d, a.token) && FindsReady(d1, a) == FindsReady(d, a)
  {
  }

  /** The exchange of the word and the release of the lock. */
  lemma UpdateInstalls(s: State, t: nat) returns (s': State)
    requires Inv(s) && t in s.ops && s.ops[t].UpdCas? && s.ops[t].n in s.nodes
    requires s.ops[t].seen == s.nodes[s.ops[t].n].word
    ensures Works(s, s', t, 2) && Inv(s')
    ensures var op, d := s.ops[t], s.nodes[s.ops[t].n];
            var d' := d.(word := d.word.(wr := op.pos, interest := op.args.interest, edge := op.args.edge,
                                         oneshot := op.args.oneshot,
                                         queued := d.word.queued || d.word.ready * op.args.interest != {}),
                         owner := if FindsReady(d, op.args) then By(t) else d.owner,
                         tokens := d.tokens + [op.args.token], lock := Unlocked);
            if FindsReady(d, op.args) then Turns(s, s', t, op.n, d', Enqueue(op.n, op.h, false))
            else s' == s.(nodes := s.nodes[op.n := d'], ops := s.ops - {t})
  {
    hide Inv, Apply, Enabled, Works, FindsReady;
    WorksOne(s, t);
    UpdCasStep(s, t);
    var s1, op := Apply(s, Thread(t)), s.ops[t];
    WorksOne(s1, t);
    UpdUnlockStep(s1, t);
    s' := Apply(s1, Thread(t));
    WorksOn(s, s1, s', t, 1, 1);
    EndsOps(s.ops, t, s1.ops[t], Enqueue(op.n, op.h, false));
    assert s.nodes[op.n := s1.nodes[op.n]][op.n := s'.nodes[op.n]] == s.nodes[op.n := s'.nodes[op.n]];
  }

  /** An `update` from its lock on. */
  lemma UpdateLocked(s: State, t: nat) returns (s': State, k: nat)
    requires Inv(s) && t in s.ops && s.ops[t].UpdLock? && s.ops[t].n in s.nodes && Sized(s.nodes[s.ops[t].n])
    requires s.nodes[s.ops[t].n].lock.Unlocked?
    ensures k <= 5 && Works(s, s', t, k) && Inv(s')
    ensures var op, d := s.ops[t], s.nodes[s.ops[t].n];
            var d' := Registered(d, op.args).(owner := if FindsReady(d, op.args) then By(t) else d.owner);
            if FindsReady(d, op.args) then Turns(s, s', t, op.n, d', Enqueue(op.n, op.h, false))
            else s' == s.(nodes := s.nodes[op.n := d'], ops := s.ops - {t})
  {
    hide Inv, Apply, Enabled, Works, NextTokenPos;
    var op, d := s.ops[t], s.nodes[s.ops[t].n];
    WorksOne(s, t);
    UpdLockStep(s, t);
    var s1 := Apply(s, Thread(t));
    var s2, j := UpdateWrites(s1, t);
    s' := UpdateInstalls(s2, t);
    WorksOn(s, s1, s2, t, 1, j);
    WorksOn(s, s2, s', t, 1 + j, 2);
    k := 3 + j;
    TurnsOn(s, s1, s2, t, op.n, s1.nodes[op.n], s1.ops[t], s2.nodes[op.n], s2.ops[t]);
    EndsOps(s.ops, t, s2.ops[t], Enqueue(op.n, op.h, false));
    assert s.nodes[op.n := s2.nodes[op.n]][op.n := s'.nodes[op.n]] == s.nodes[op.n := s'.nodes[op.n]];
  }

  /** An `update` that nobody disturbs is over after at most thirteen steps. If another thread is in
      the middle of one it is discarded. Otherwise interest, options and token are just those of the
      call; if the node is ready as far as it is of interest now its queued bit is set, and it waits
      in the queue as the last one if the bit was not set before. */
  lemma UpdateAlone(s: State, t: nat) returns (s': State, k: nat)
    requires Inv(s) && t in s.ops && s.ops[t].UpdClaim? && !s.closing
    ensures k <= 13 && Works(s, s', t, k) && Inv(s') && Aside(s, s', t) && s'.ops == s.ops - {t}
    ensures s.ops[t].n in s.nodes && Sized(s.nodes[s.ops[t].n])
    ensures var n, a, d := s.ops[t].n, s.ops[t].args, s.nodes[s.ops[t].n];
            if d.lock.LockedBy? then Becomes(s, s', n, Attached(d)) && Waiting(s') == Waiting(s)
            else Becomes(s, s', n, Registered(Attached(d), a))
                 && Waiting(s') == Waiting(s) + if FindsReady(d, a) then [n] else []
  {
    hide Inv, Apply, Enabled, Works, Waiting, OthersKept, Aside, Becomes, Attached, FindsReady, SlotFor;
    KnownNode(s, t);
    var op, d := s.ops[t], s.nodes[s.ops[t].n];
    AttachedKeeps(d, op.args, t);
    var s1, i := UpdateAttaches(s, t);
    if d.lock.LockedBy? {
      WorksOne(s1, t);
      UpdLockStep(s1, t);
      s', k := Apply(s1, Thread(t)), i + 1;
      WorksOn(s, s1, s', t, i, 1);
      EndsOps(s.ops, t, s1.ops[t], s1.ops[t]);
      ReturnsAside(s, s', t, op.n, Attached(d));
    } else {
      var s2, j := UpdateLocked(s1, t);
      WorksOn(s, s1, s2, t, i, j);
      EndsOps(s.ops, t, s1.ops[t], Enqueue(op.n, op.h, false));
      var d2 := s2.nodes[op.n];
      assert s.nodes[op.n := Attached(d)][op.n := d2] == s.nodes[op.n := d2];
      if t in s2.ops {
        var l;
        s', l := TurnedComesBack(s, s2, t, op.n, d2, op.h, false);
        k := i + j + l;
        WorksOn(s, s2, s', t, i + j, l);
      } else {
        s', k := s2, i + j;
        ReturnsAside(s, s2, t, op.n, d2);
      }
      BecomesBare(s, s', op.n, d2, Registered(Attached(d), op.args));
    }
  }

  // ----- dropping a registration -----

  /** The node once its registration has gone. */
  function Unregistered(d: Node, t: nat): Node {
    d.(word := d.word.(dropped := true, queued := true), dropper := t, refs := d.refs - 1, handles := d.handles - {0})
  }

  lemma DropFlagStep(s: State, t: nat)
    requires t in s.ops && s.ops[t].DropFlag? && CanStep(s, t)
    ensures var s', op, d := Apply(s, Thread(t)), s.ops[t], s.nodes[s.ops[t].n];
            var d' := d.(word := d.word.(dropped := true, queued := true), dropper := t);
            if d.word.queued then Turns(s, s', t, op.n, d', DropHandle(op.n, op.h))
            else Turns(s, s', t, op.n, if d.associated then d'.(owner := By(t)) else d', Enqueue(op.n, op.h, true))
  {
  }

  lemma UnqueuedStep(s: State, t: nat)
    requires t in s.ops && s.ops[t].Enqueue? && CanStep(s, t) && s.ops[t].dropping && !s.nodes[s.ops[t].n].associated
    ensures var op := s.ops[t]; Turns(s, Apply(s, Thread(t)), t, op.n, s.nodes[op.n], DropHandle(op.n, op.h))
  {
    SameAgain(s, s.ops[t].n);
  }

  /** The handle goes, and with it a reference. */
  lemma DropHandleComesBack(s: State, t: nat) returns (s': State)
    requires Inv(s) && t in s.ops && s.ops[t].DropHandle?
    ensures Works(s, s', t, 1) && Inv(s') && s.ops[t].n in s.nodes
    ensures var n, d := s.ops[t].n, s.nodes[s.ops[t].n];
            s' == s.(nodes := s.nodes[n := d.(refs := d.refs - 1, handles := d.handles - {s.ops[t].h})],
                     ops := s.ops - {t})
  {
    hide Inv;
    WorksOne(s, t);
    s' := Apply(s, Thread(t));
  }

  lemma DropsRegistration(s: State, t: nat)
    requires Inv(s) && t in s.ops && s.ops[t].DropFlag?
    ensures s.ops[t].h == 0 && s.ops[t].n in s.nodes
  {
    assert OpOk(s, t);
  }

  /** Flagging the node and getting it into the queue. */
  lemma FlagComesToHandle(s: State, t: nat) returns (s': State, k: nat)
    requires Inv(s) && t in s.ops && s.ops[t].DropFlag? && !s.closing
    ensures k <= 7 && Works(s, s', t, k) && Inv(s') && Aside(s, s', t)
    ensures s.ops[t].n in s.nodes && s'.ops == s.ops[t := DropHandle(s.ops[t].n, s.ops[t].h)]
    ensures var n, d := s.ops[t].n, s.nodes[s.ops[t].n];
            && Becomes(s, s', n, d.(word := d.word.(dropped := true, queued := true), dropper := t))
            && Waiting(s') == Waiting(s) + if d.associated && !d.word.queued then [n] else []
  {
    hide Inv, Apply, Enabled, Works, Waiting, OthersKept, Aside, Becomes;
    WorksOne(s, t);
    DropFlagStep(s, t);
    var s1, op, d := Apply(s, Thread(t)), s.ops[t], s.nodes[s.ops[t].n];
    var flagged := d.(word := d.word.(dropped := true, queued := true), dropper := t);
    if d.word.queued {
      s', k := s1, 1;
      TurnsAside(s, s', t, op.n, s'.nodes[op.n], s'.ops[t]);
    } else if d.associated {
      var j;
      s', j := TurnedComesBack(s, s1, t, op.n, s1.nodes[op.n], op.h, true);
      k := 1 + j;
      WorksOn(s, s1, s', t, 1, j);
      BecomesBare(s, s', op.n, s1.nodes[op.n], flagged);
    } else {
      WorksOne(s1, t);
      UnqueuedStep(s1, t);
      s', k := Apply(s1, Thread(t)), 2;
      WorksOn(s, s1, s', t, 1, 1);
      TurnsOn(s, s1, s', t, op.n, flagged, s1.ops[t], flagged, s'.ops[t]);
      TurnsAside(s, s', t, op.n, flagged, s'.ops[t]);
    }
  }

  lemma HandleGoes(s: State, s1: State, s': State, t: nat, n: nat, d: Node, h: nat)
    requires s1.nodes.Keys == s.nodes.Keys && n in s.nodes && Aside(s, s1, t) && Becomes(s, s1, n, d)
    requires t in s1.ops && var d1 := s1.nodes[n];
             s' == s1.(nodes := s1.nodes[n := d1.(refs := d1.refs - 1, handles := d1.handles - {h})],
                 ops := s1.ops - {t})
    ensures Aside(s, s', t) && Becomes(s, s', n, d.(refs := d.refs - 1, handles := d.handles - {h}))
    ensures Waiting(s') == Waiting(s1)
  {
    assert Bare(s1.nodes[n]) == Bare(d);
    ReturnsAside(s1, s', t, n, s'.nodes[n]);
    AsideOn(s, s1, s', t);
  }

  /** The drop of a registration that nobody disturbs is over after at most eight steps: the node is
      marked as dropped, the handle and its reference are gone, and the node waits in the queue, to be
      released by the next poll, if it has one and did not wait there or elsewhere before. */
  lemma DropAlone(s: State, t: nat) returns (s': State, k: nat)
    requires Inv(s) && t in s.ops && s.ops[t].DropFlag? && !s.closing
    ensures k <= 8 && Works(s, s', t, k) && Inv(s') && Aside(s, s', t) && s'.ops == s.ops - {t}
    ensures s.ops[t].n in s.nodes
    ensures var n, d := s.ops[t].n, s.nodes[s.ops[t].n];
            && Becomes(s, s', n, Unregistered(d, t))
            && Waiting(s') == Waiting(s) + if d.associated && !d.word.queued then [n] else []
  {
    hide Inv, Apply, Enabled, Works, Waiting, OthersKept, Becomes;
    DropsRegistration(s, t);
    var n, d := s.ops[t].n, s.nodes[s.ops[t].n];
    var s1, j := FlagComesToHandle(s, t);
    s' := DropHandleComesBack(s1, t);
    WorksOn(s, s1, s', t, j, 1);
    k := j + 1;
    HandleGoes(s, s1, s', t, n, d.(word := d.word.(dropped := true, queued := true), dropper := t), 0);
    EndsOps(s.ops, t, s1.ops[t], s1.ops[t]);
  }

  // ----- from the call to the event -----

  lemma {:induction false} ReportsEach(s: State, ids: seq<nat>, n: nat, e: Event)
    requires n in ids && n in s.nodes && Report(n, s.nodes[n]) == [e]
    ensures e in Reports(s, ids)
  {
    if ids[0] == n { assert Report(n, s.nodes[n])[0] == e; } else { ReportsEach(s, ids[1..], n, e); }
  }

  lemma StaysUnhurried(s: State, s': State, t: nat)
    requires Inv(s') && Aside(s, s', t) && t !in s'.ops && P.NothingHalfPushed(s.q)
    ensures P.NothingHalfPushed(s'.q)
  {
    hide Q.Inv, NodesOk, OpsOk, Exclusive, ConsQueueOk, ConsNodeOk, ClosedOk;
    assert Q.Producer(t) !in s'.q.pushes;
  }

  /** When a thread makes a live node ready in a way that is of interest, and then the consumer polls,
      neither of them disturbed, the poll reports just that readiness, as far as it is of interest,
      under the node's token, unless another thread still had the push of the node to do. */
  lemma SetThenPoll(s: State, t: nat) returns (s1: State, s': State, j: nat, k: nat)
    requires Inv(s) && t in s.ops && s.ops[t].SetLoad? && !s.closing && s.cons == Polling(Q.Null)
    requires P.NothingHalfPushed(s.q) && s.ops[t].n in s.nodes
    requires var d := s.nodes[s.ops[t].n];
             && !d.word.dropped && s.ops[t].ready * d.word.interest != {}
             && (d.word.queued ==> s.ops[t].n in Waiting(s))
    ensures Works(s, s1, t, j) && t !in s1.ops && Consumes(s1, s', k) && s'.cons.Out?
    ensures var n, d := s.ops[t].n, s.nodes[s.ops[t].n];
            && |s.events| <= |s'.events|
            && Event(n, s.ops[t].ready * d.word.interest, LastToken(d)) in s'.events[|s.events|..]
  {
    hide Inv, Waiting, Works, Consumes, OthersKept, P.NothingHalfPushed;
    s1, j := SetAlone(s, t);
    StaysUnhurried(s, s1, t);
    s', k := PollDeliversAll(s1);
    var n, r, d := s.ops[t].n, s.ops[t].ready, s.nodes[s.ops[t].n];
    var e := Event(n, r * d.word.interest, LastToken(d));
    assert Bare(s1.nodes[n]) == Bare(SetDown(d, r));
    SameTaken(SetDown(d, r), s1.nodes[n]);
    assert Report(n, SetDown(d, r)) == [e];
    ReportsEach(s1, Waiting(s1), n, e);
    assert s'.events[|s.events|..] == ReadinessDelivery.Reports(s1, Waiting(s1));
  }
}
