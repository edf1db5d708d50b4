/** Every step of the readiness nodes keeps their invariant. */
module ReadinessSteps {
  import Q = MpscQueue
  import opened ReadinessNodes

  lemma InitInv()
    ensures Inv(Init())
  {
    Q.InitInv();
  }

  // ----- steps of the handles keep the invariant -----

  /** Thread `t`, outside `enqueue_node`, works on its node `n` and on nothing else shared. */
  predicate Local(s: State, s': State, t: nat, n: nat) {
    && t in s.ops && s.ops[t].n == n && n in s.nodes && n in s'.nodes
    && s' == s.(nodes := s.nodes[n := s'.nodes[n]], ops := s'.ops)
    && (s'.ops == s.ops - {t}
        || (t in s'.ops && s'.ops == s.ops[t := s'.ops[t]] && s'.ops[t].n == n && s'.ops[t].h == s.ops[t].h))
    && !s.ops[t].Pushing? && (t in s'.ops ==> !s'.ops[t].Pushing?)
  }

  /** A change of a node that no other thread and not the consumer can object to. */
  predicate Harmless(d: Node, d': Node, t: nat) {
    && d.handles == d'.handles
    && (d.lock.LockedBy? && d.lock.t != t ==> d'.lock == d.lock)
    && (d.associated ==> d'.associated)
    && (d.qref.Claimed? && d.qref.t != t ==> d'.qref == d.qref)
    && (d.qref.Claimed? ==> d'.qref.Claimed? || d'.qref.Held?)
    && (d.qref.Held? ==> d'.qref.Held? || d'.qref.Released?)
    && (d.owner.By? && d.owner.t != t ==> d'.owner == d.owner)
    && d.word.dropped == d'.word.dropped
    && d.word.rd == d'.word.rd
    && (d.lock != LockedBy(t) ==> d.word.wr == d'.word.wr && d.slots == d'.slots)
    && |d.slots| == |d'.slots|
    && (d.word.rd < |d.slots| ==> d.slots[d.word.rd] == d'.slots[d.word.rd])
    && (forall k :: k in d.tokens ==> k in d'.tokens)
  }

  lemma OtherNodeKept(s: State, s': State, t: nat, n: nat, m: nat)
    requires Local(s, s', t, n) && m in s.nodes && m != n && NodeOk(s, m)
    ensures m in s'.nodes && NodeOk(s', m)
  {
    hide CellOk;
    assert s'.nodes[m] == s.nodes[m];
    assert Holds(s', m) == Holds(s, m);
  }

  lemma NodesKept(s: State, s': State, t: nat, n: nat)
    requires NodesOk(s) && Local(s, s', t, n) && NodeOk(s', n)
    ensures NodesOk(s')
  {
    hide NodeOk;
    forall m | m in s'.nodes ensures NodeOk(s', m) {
      if m != n { OtherNodeKept(s, s', t, n, m); }
    }
  }

  /** Another thread's operation does not notice. */
  lemma OtherOpKept(s: State, s': State, t: nat, n: nat, u: nat)
    requires Local(s, s', t, n) && Harmless(s.nodes[n], s'.nodes[n], t) && OpOk(s, t) && u in s.ops && OpOk(s, u)
    requires u != t
    requires s.nodes[n].associated || !s'.nodes[n].associated || s.ops[t].h == 0
    requires Ending(s.ops[u]) && s.ops[u].n == n ==> s.ops[u].h != s.ops[t].h
    ensures u in s'.ops && OpOk(s', u)
  {
    assert u in s'.ops && s'.ops[u] == s.ops[u];
    if s.ops[u].n == n { OtherCellKept(s.nodes[n], s'.nodes[n], t, s.ops[t], u, s.ops[u]); }
    hide OpCellOk, Harmless;
    assert Owing(s', u) ==> Owing(s, u);
  }

  lemma OtherCellKept(d: Node, d': Node, t: nat, op: Op, u: nat, other: Op)
    requires OpCellOk(d, op, t) && OpCellOk(d, other, u) && u != t && Harmless(d, d', t)
    ensures OpCellOk(d', other, u)
  {
  }

  lemma OpsKept(s: State, s': State, t: nat, n: nat)
    requires OpsOk(s) && Exclusive(s) && Local(s, s', t, n) && Harmless(s.nodes[n], s'.nodes[n], t)
    requires t in s'.ops ==> OpOk(s', t)
    requires s.nodes[n].associated || !s'.nodes[n].associated || s.ops[t].h == 0
    ensures OpsOk(s')
  {
    hide OpOk, Harmless, Ending;
    forall u | u in s'.ops ensures OpOk(s', u) {
      if u != t { OtherOpKept(s, s', t, n, u); }
    }
  }

  lemma ConsKept(s: State, s': State, t: nat, n: nat)
    requires ConsNodeOk(s) && ConsQueueOk(s) && Local(s, s', t, n) && Harmless(s.nodes[n], s'.nodes[n], t)
    requires s'.nodes[n].qref.Released? && !s.nodes[n].qref.Released? ==> s.closing
    ensures ConsNodeOk(s')
  {
  }

  /** An operation that does not start to drop its handle keeps handles exclusive. */
  lemma ExclusiveKept(s: State, s': State, t: nat, n: nat)
    requires Exclusive(s) && Local(s, s', t, n)
    requires t in s'.ops && Ending(s'.ops[t]) ==> Ending(s.ops[t])
    ensures Exclusive(s')
  {
  }

  /** What thread `t` has to show of a step of its own for the invariant to survive. */
  predicate Fine(s: State, s': State, t: nat, n: nat) {
    && Local(s, s', t, n)
    && Harmless(s.nodes[n], s'.nodes[n], t)
    && NodeOk(s', n)
    && (t in s'.ops ==> OpOk(s', t))
    && (t in s'.ops && Ending(s'.ops[t]) ==> Ending(s.ops[t]))
    && (s.nodes[n].associated || !s'.nodes[n].associated || s.ops[t].h == 0)
    && (s'.nodes[n].qref.Released? && !s.nodes[n].qref.Released? ==> s.closing)
  }

  lemma LocalInv(s: State, s': State, t: nat, n: nat)
    requires Inv(s) && Fine(s, s', t, n)
    ensures Inv(s')
  {
    hide NodesOk, Exclusive, ConsNodeOk, Q.Inv;
    NodesKept(s, s', t, n);
    OpsKept(s, s', t, n);
    ConsKept(s, s', t, n);
    ExclusiveKept(s, s', t, n);
    assert OpOk(s, t);
  }

  /** The state thread `t` acts in, as far as its own operation is concerned. */
  predicate Acting(s: State, t: nat) {
    t in s.ops && s.ops[t].n in s.nodes && NodeOk(s, s.ops[t].n) && OpOk(s, t)
  }

  /** set_readiness: the load and the compare-and-swap loop. */
  lemma SetLoadFine(s: State, t: nat)
    requires Acting(s, t) && s.ops[t].SetLoad?
    ensures Fine(s, StepOp(s, t), t, s.ops[t].n)
  {
  }

  lemma SetCasRetryFine(s: State, t: nat)
    requires Acting(s, t) && s.ops[t].SetCas? && (s.ops[t].seen.dropped || s.nodes[s.ops[t].n].word != s.ops[t].seen)
    ensures Fine(s, StepOp(s, t), t, s.ops[t].n)
  {
  }

  /** A queue-less node has no interest, so nothing is ready on it. */
  lemma SetCasWins(d: Node, w: Word, t: nat)
    requires CellOk(d) && w == SetQueuedIfReady(d.word.(ready := w.ready)) && !d.word.dropped
    ensures d.word.queued || !w.queued ==> w.queued == d.word.queued
    ensures !d.word.queued && w.queued ==> d.associated && d.owner.Nobody?
    ensures CellOk(d.(word := w, owner := if !d.word.queued && w.queued then By(t) else d.owner))
  {
  }

  lemma SetCasFine(s: State, t: nat)
    requires Acting(s, t) && s.ops[t].SetCas? && !s.ops[t].seen.dropped && s.nodes[s.ops[t].n].word == s.ops[t].seen
    ensures Fine(s, StepOp(s, t), t, s.ops[t].n)
  {
    hide CellOk, NodeOk, OpCellOk;
    SetCasOps(s, t);
    SetCasNode(s, t);
  }

  lemma SetCasOps(s: State, t: nat)
    requires Acting(s, t) && s.ops[t].SetCas? && !s.ops[t].seen.dropped && s.nodes[s.ops[t].n].word == s.ops[t].seen
    ensures var s' := StepOp(s, t);
            Local(s, s', t, s.ops[t].n) && Harmless(s.nodes[s.ops[t].n], s'.nodes[s.ops[t].n], t)
            && s'.nodes[s.ops[t].n].(word := s.nodes[s.ops[t].n].word, owner := s.nodes[s.ops[t].n].owner)
                 == s.nodes[s.ops[t].n]
            && (t in s'.ops ==> OpOk(s', t) && !Ending(s'.ops[t]))
  {
    var d := s.nodes[s.ops[t].n];
    SetCasWins(d, SetQueuedIfReady(d.word.(ready := s.ops[t].ready)), t);
  }

  lemma SetCasNode(s: State, t: nat)
    requires Acting(s, t) && s.ops[t].SetCas? && !s.ops[t].seen.dropped && s.nodes[s.ops[t].n].word == s.ops[t].seen
    ensures NodeOk(StepOp(s, t), s.ops[t].n)
  {
    hide CellOk, OpCellOk;
    var d := s.nodes[s.ops[t].n];
    SetCasWins(d, SetQueuedIfReady(d.word.(ready := s.ops[t].ready)), t);
  }

  lemma UpdClaimFine(s: State, t: nat)
    requires Acting(s, t) && s.ops[t].UpdClaim?
    ensures Fine(s, StepOp(s, t), t, s.ops[t].n)
  {
  }

  lemma UpdCountFine(s: State, t: nat)
    requires Acting(s, t) && s.ops[t].UpdCount?
    ensures Fine(s, StepOp(s, t), t, s.ops[t].n)
  {
  }

  lemma UpdLockFine(s: State, t: nat)
    requires Acting(s, t) && s.ops[t].UpdLock?
    ensures Fine(s, StepOp(s, t), t, s.ops[t].n)
  {
  }

  lemma UpdLoadFine(s: State, t: nat)
    requires Acting(s, t) && s.ops[t].UpdLoad?
    ensures Fine(s, StepOp(s, t), t, s.ops[t].n)
  {
  }

  lemma UpdWriteFine(s: State, t: nat)
    requires Acting(s, t) && s.ops[t].UpdWrite?
    ensures Fine(s, StepOp(s, t), t, s.ops[t].n)
  {
  }

  lemma UpdCasRetryFine(s: State, t: nat)
    requires Acting(s, t) && s.ops[t].UpdCas? && s.nodes[s.ops[t].n].word != s.ops[t].seen
    ensures Fine(s, StepOp(s, t), t, s.ops[t].n)
  {
  }

  lemma UpdCasFine(s: State, t: nat)
    requires Acting(s, t) && s.ops[t].UpdCas? && s.nodes[s.ops[t].n].word == s.ops[t].seen
    ensures Fine(s, StepOp(s, t), t, s.ops[t].n)
  {
  }

  lemma UpdUnlockFine(s: State, t: nat)
    requires Acting(s, t) && s.ops[t].UpdUnlock?
    ensures Fine(s, StepOp(s, t), t, s.ops[t].n)
  {
  }

  lemma GiveBackFine(s: State, t: nat)
    requires Acting(s, t) && s.ops[t].GiveBack? && !s.nodes[s.ops[t].n].qref.Claimed?
    ensures Fine(s, StepOp(s, t), t, s.ops[t].n)
  {
  }

  lemma QuietOpInv(s: State, t: nat)
    requires Inv(s) && t in s.ops
    requires !s.ops[t].Enqueue? && !s.ops[t].Pushing? && !s.ops[t].GiveBack? && !s.ops[t].DropFlag?
    requires !s.ops[t].DropHandle?
    ensures Acting(s, t) && Inv(StepOp(s, t))
  {
    assert OpOk(s, t) && NodeOk(s, s.ops[t].n);
    match s.ops[t] {
      case SetLoad(_, _, _) => SetLoadFine(s, t);
      case SetCas(n, _, _, seen) =>
        if seen.dropped || s.nodes[n].word != seen { SetCasRetryFine(s, t); } else { SetCasFine(s, t); }
      case UpdClaim(_, _, _) => UpdClaimFine(s, t);
      case UpdCount(_, _, _) => UpdCountFine(s, t);
      case UpdLock(_, _, _) => UpdLockFine(s, t);
      case UpdLoad(_, _, _) => UpdLoadFine(s, t);
      case UpdWrite(_, _, _, _, _) => UpdWriteFine(s, t);
      case UpdCas(n, _, _, seen, _) => if s.nodes[n].word != seen { UpdCasRetryFine(s, t); } else { UpdCasFine(s, t); }
      case UpdUnlock(_, _, _) => UpdUnlockFine(s, t);
    }
    LocalInv(s, StepOp(s, t), t, s.ops[t].n);
  }

  lemma GiveBackInv(s: State, t: nat)
    requires Inv(s) && t in s.ops && s.ops[t].GiveBack?
    ensures Acting(s, t) && Inv(StepOp(s, t))
  {
    var n := s.ops[t].n;
    assert OpOk(s, t) && NodeOk(s, n);
    assert s.nodes[n].qref.Claimed? ==> OpOk(s, s.nodes[n].qref.t);
    GiveBackFine(s, t);
    LocalInv(s, StepOp(s, t), t, n);
  }

  // ----- dropping handles -----

  lemma DropFlagOps(s: State, t: nat)
    requires OpsOk(s) && Exclusive(s) && t in s.ops && s.ops[t].DropFlag? && Acting(s, t)
    ensures OpsOk(StepOp(s, t))
  {
    var s' := StepOp(s, t);
    forall u | u in s'.ops ensures OpOk(s', u) { assert OpOk(s, u); }
  }

  lemma DropFlagNode(s: State, t: nat)
    requires t in s.ops && s.ops[t].DropFlag? && Acting(s, t)
    ensures NodeOk(StepOp(s, t), s.ops[t].n)
  {
    assert CellOk(StepOp(s, t).nodes[s.ops[t].n]);
    hide OpCellOk, InSection;
  }

  lemma DropFlagNodes(s: State, t: nat)
    requires NodesOk(s) && t in s.ops && s.ops[t].DropFlag? && Acting(s, t)
    ensures NodesOk(StepOp(s, t))
  {
    DropFlagNode(s, t);
    hide NodeOk;
    NodesKept(s, StepOp(s, t), t, s.ops[t].n);
  }

  lemma DropFlagRest(s: State, t: nat)
    requires t in s.ops && s.ops[t].DropFlag? && Acting(s, t)
    requires Exclusive(s) && ConsQueueOk(s) && ConsNodeOk(s) && ClosedOk(s) && KnownOk(s)
    ensures var s' := StepOp(s, t); Exclusive(s') && ConsQueueOk(s') && ConsNodeOk(s') && ClosedOk(s') && KnownOk(s')
  {
  }

  lemma DropFlagInv(s: State, t: nat)
    requires Inv(s) && t in s.ops && s.ops[t].DropFlag?
    ensures Acting(s, t) && Inv(StepOp(s, t))
  {
    assert OpOk(s, t) && NodeOk(s, s.ops[t].n);
    DropFlagRest(s, t);
    DropFlagOps(s, t);
    DropFlagNodes(s, t);
  }

  lemma DropHandleOps(s: State, t: nat)
    requires OpsOk(s) && Exclusive(s) && t in s.ops && s.ops[t].DropHandle? && Acting(s, t)
    ensures OpsOk(StepOp(s, t))
  {
    var s' := StepOp(s, t);
    forall u | u in s'.ops ensures OpOk(s', u) { assert OpOk(s, u); }
  }

  lemma DropHandleNodes(s: State, t: nat)
    requires NodesOk(s) && t in s.ops && s.ops[t].DropHandle? && Acting(s, t)
    ensures NodesOk(StepOp(s, t))
  {
    assert NodeOk(s, s.ops[t].n);
    var s' := StepOp(s, t);
    var n := s.ops[t].n;
    DropHandleNode(s, t);
    NodesKept(s, s', t, n);
  }

  lemma DropHandleNode(s: State, t: nat)
    requires t in s.ops && s.ops[t].DropHandle? && Acting(s, t) && NodeOk(s, s.ops[t].n)
    ensures NodeOk(StepOp(s, t), s.ops[t].n)
  {
    assert CellOk(StepOp(s, t).nodes[s.ops[t].n]);
  }

  lemma DropHandleRest(s: State, t: nat)
    requires t in s.ops && s.ops[t].DropHandle? && Acting(s, t)
    requires Exclusive(s) && ConsQueueOk(s) && ConsNodeOk(s) && ClosedOk(s) && KnownOk(s)
    ensures var s' := StepOp(s, t); Exclusive(s') && ConsQueueOk(s') && ConsNodeOk(s') && ClosedOk(s') && KnownOk(s')
  {
    assert OpOk(s, t);
  }

  lemma DropHandleInv(s: State, t: nat)
    requires Inv(s) && t in s.ops && s.ops[t].DropHandle?
    ensures Acting(s, t) && Inv(StepOp(s, t))
  {
    assert OpOk(s, t) && NodeOk(s, s.ops[t].n);
    DropHandleRest(s, t);
    DropHandleOps(s, t);
    DropHandleNodes(s, t);
  }

  // ----- pushing a node -----

  /** The queued bit is a licence: whoever owes a push meets the queue's obligation. */
  lemma MayPush(s: State, t: nat)
    requires Inv(s) && t in s.ops && s.ops[t].Enqueue? && s.nodes[s.ops[t].n].associated
    ensures Q.CanBegin(s.q, Q.Producer(t), Q.Node(s.ops[t].n))
  {
    var n := s.ops[t].n;
    assert OpOk(s, t) && NodeOk(s, n) && Owing(s, t);
    forall u | u in s.q.pushes && Q.Owes(s.q.pushes[u]) ensures s.q.pushes[u].node != Q.Node(n) {
      if u.Producer? {
        assert OpOk(s, u.t) && Owing(s, u.t);
      } else {
        assert s.cons.Requeuing? ==> Holds(s, s.cons.n);
        assert Q.PushOk(s.q, u);
      }
    }
  }

  lemma EnqueueInv(s: State, t: nat)
    requires Inv(s) && t in s.ops && s.ops[t].Enqueue?
    ensures Acting(s, t) && Inv(StepOp(s, t))
  {
    var n := s.ops[t].n;
    assert OpOk(s, t) && NodeOk(s, n);
    if s.nodes[n].associated {
      MayPush(s, t);
      Q.BeginInv(s.q, Q.Producer(t), Q.Node(n));
      EnqueueOps(s, t);
      EnqueueNodes(s, t);
      EnqueueRest(s, t);
    } else {
      UnqueuedDropFine(s, t);
      LocalInv(s, StepOp(s, t), t, n);
    }
  }

  lemma UnqueuedDropFine(s: State, t: nat)
    requires Acting(s, t) && s.ops[t].Enqueue? && !s.nodes[s.ops[t].n].associated
    ensures Fine(s, StepOp(s, t), t, s.ops[t].n)
  {
  }

  lemma EnqueueOps(s: State, t: nat)
    requires OpsOk(s) && t in s.ops && s.ops[t].Enqueue? && Acting(s, t) && s.nodes[s.ops[t].n].associated
    ensures OpsOk(StepOp(s, t))
  {
    var s' := StepOp(s, t);
    forall u | u in s'.ops ensures OpOk(s', u) { assert OpOk(s, u); }
  }

  lemma EnqueueNodes(s: State, t: nat)
    requires NodesOk(s) && t in s.ops && s.ops[t].Enqueue? && Acting(s, t) && s.nodes[s.ops[t].n].associated
    requires Q.Producer(t) !in s.q.pushes
    ensures NodesOk(StepOp(s, t))
  {
    var s' := StepOp(s, t);
    forall m | m in s'.nodes ensures NodeOk(s', m) {
      assert NodeOk(s, m);
      assert Holds(s, m) == Holds(s', m);
    }
  }

  lemma EnqueueRest(s: State, t: nat)
    requires t in s.ops && s.ops[t].Enqueue? && Acting(s, t) && s.nodes[s.ops[t].n].associated
    requires Exclusive(s) && ConsQueueOk(s) && ConsNodeOk(s) && ClosedOk(s) && KnownOk(s)
    ensures var s' := StepOp(s, t); Exclusive(s') && ConsQueueOk(s') && ConsNodeOk(s') && ClosedOk(s') && KnownOk(s')
  {
    assert OpOk(s, t);
  }

  /** The head CAS due next in push `p` will succeed. */
  predicate Wins(q: Q.State, p: Q.Push) { p.Try? && !p.prev.Closed? && q.head == p.prev }

  /** What an operation inside `enqueue_node` does to the queue, as far as nodes can tell. */
  lemma PushEffect(q: Q.State, t: Q.Thread)
    requires t in q.pushes && Q.ChainOk(q)
    ensures Q.StepPush(q, t).cons == q.cons && Q.StepPush(q, t).tail == q.tail
    ensures t in Q.StepPush(q, t).pushes && Q.StepPush(q, t).pushes == q.pushes[t := Q.StepPush(q, t).pushes[t]]
    ensures Q.StepPush(q, t).pushes[t].node == q.pushes[t].node
    ensures Q.StepPush(q, t).chain == if Wins(q, q.pushes[t]) then q.chain + [q.pushes[t].node] else q.chain
    ensures Wins(q, q.pushes[t]) ==> Q.StepPush(q, t).pushes[t].Link?
    ensures !Wins(q, q.pushes[t]) && Q.Owes(q.pushes[t])
            ==> Q.Owes(Q.StepPush(q, t).pushes[t]) || Q.StepPush(q, t).pushes[t].Rejected? || q.pushes[t].node.End?
    ensures !Q.Owes(q.pushes[t])
            ==> !Q.Owes(Q.StepPush(q, t).pushes[t]) && (Q.StepPush(q, t).pushes[t].Rejected? <==> q.pushes[t].Rejected?)
    ensures ToClosed(Q.StepPush(q, t).pushes[t]) && !ToClosed(q.pushes[t]) ==> Q.Closed in q.chain
  {
    assert q.head in q.chain;
  }

  predicate ToClosed(p: Q.Push) { p.Rejected? || (p.Try? && p.prev.Closed?) }

  /** Thread `t` is inside `enqueue_node` and has not returned from it. */
  predicate Inside(s: State, t: nat) {
    && t in s.ops && s.ops[t].Pushing? && s.ops[t].n in s.nodes && Q.Producer(t) in s.q.pushes
    && !s.q.pushes[Q.Producer(t)].Pushed? && !s.q.pushes[Q.Producer(t)].Rejected?
    && s.q.pushes[Q.Producer(t)].node == Q.Node(s.ops[t].n)
    && (Q.Owes(s.q.pushes[Q.Producer(t)]) ==> Q.Node(s.ops[t].n) !in s.q.chain)
  }

  /** The state after an operation inside `enqueue_node`, told through its effect. */
  lemma InsideStep(s: State, t: nat) returns (q': Q.State)
    requires Inside(s, t) && Q.ChainOk(s.q)
    ensures q' == Q.StepPush(s.q, Q.Producer(t))
    ensures StepPushing(s, t) ==
            (if Wins(s.q, s.q.pushes[Q.Producer(t)]) then
               SetNode(s.(q := q'), s.ops[t].n, s.nodes[s.ops[t].n].(owner := Chained))
             else s.(q := q'))
  {
    q' := Q.StepPush(s.q, Q.Producer(t));
    PushEffect(s.q, Q.Producer(t));
  }

  lemma PushingNode(s: State, t: nat, m: nat)
    requires Inside(s, t) && Q.ChainOk(s.q) && OpOk(s, t) && m in s.nodes && NodeOk(s, m)
    ensures NodeOk(StepPushing(s, t), m)
  {
    hide InSection, Ending, Q.ChainOk;
    var q' := InsideStep(s, t);
    PushEffect(s.q, Q.Producer(t));
    var s' := StepPushing(s, t);
    var n := s.ops[t].n;
    assert Holds(s', m) == Holds(s, m);
    assert m != n ==> (Q.Node(m) in s'.q.chain <==> Q.Node(m) in s.q.chain);
  }

  lemma PushingNodes(s: State, t: nat)
    requires NodesOk(s) && Inside(s, t) && Q.ChainOk(s.q) && OpOk(s, t)
    ensures NodesOk(StepPushing(s, t))
  {
    hide NodeOk, OpOk, Q.ChainOk;
    forall m | m in StepPushing(s, t).nodes ensures NodeOk(StepPushing(s, t), m) { PushingNode(s, t, m); }
  }

  lemma PushingOp(s: State, t: nat, u: nat)
    requires Inside(s, t) && Q.ChainOk(s.q) && OpOk(s, t) && u in s.ops && OpOk(s, u)
    ensures OpOk(StepPushing(s, t), u)
  {
    hide OpCellOk, Q.ChainOk;
    var q' := InsideStep(s, t);
    PushEffect(s.q, Q.Producer(t));
    var s' := StepPushing(s, t);
    PushingCell(s, s', t, u);
    assert u != t ==> Owing(s', u) == Owing(s, u);
    assert u != t && Owing(s, t) && Owing(s, u) ==> s.ops[u].n != s.ops[t].n;
  }

  /** At most the owner of a node has changed. */
  lemma PushingCell(s: State, s': State, t: nat, u: nat)
    requires t in s.ops && u in s.ops && s.ops[t].n in s.nodes && s.ops[u].n in s.nodes
    requires s'.nodes == s.nodes || s'.nodes == s.nodes[s.ops[t].n := s.nodes[s.ops[t].n].(owner := Chained)]
    requires OpCellOk(s.nodes[s.ops[u].n], s.ops[u], u)
    ensures OpCellOk(s'.nodes[s.ops[u].n], s.ops[u], u)
  {
  }

  lemma PushingOps(s: State, t: nat)
    requires OpsOk(s) && Inside(s, t) && Q.ChainOk(s.q)
    ensures OpsOk(StepPushing(s, t))
  {
    hide OpOk, Q.ChainOk;
    forall u | u in StepPushing(s, t).ops ensures OpOk(StepPushing(s, t), u) {
      assert OpOk(s, t) && u in s.ops;
      PushingOp(s, t, u);
    }
  }

  lemma PushingRest(s: State, t: nat)
    requires Inside(s, t) && Q.ChainOk(s.q)
    requires Exclusive(s) && ConsQueueOk(s) && ConsNodeOk(s) && ClosedOk(s) && KnownOk(s)
    ensures var s' := StepPushing(s, t);
            Exclusive(s') && ConsQueueOk(s') && ConsNodeOk(s') && ClosedOk(s') && KnownOk(s')
  {
    var q' := InsideStep(s, t);
    PushEffect(s.q, Q.Producer(t));
  }

  /** `enqueue_node` returns to thread `t`. */
  predicate Leaving(s: State, t: nat) {
    && t in s.ops && s.ops[t].Pushing? && s.ops[t].n in s.nodes && Q.Producer(t) in s.q.pushes
    && (s.q.pushes[Q.Producer(t)].Pushed? || s.q.pushes[Q.Producer(t)].Rejected?)
  }

  /** What the return changes: nothing but the thread's own operation and push. */
  predicate Returns(s: State, s': State, t: nat) {
    && s' == s.(q := s'.q, ops := s'.ops) && s'.q.chain == s.q.chain && s'.q.cons == s.q.cons
    && s'.q.pushes == s.q.pushes - {Q.Producer(t)}
    && s'.ops - {t} == s.ops - {t}
  }

  lemma LeavingReturns(s: State, t: nat)
    requires Leaving(s, t)
    ensures Returns(s, StepPushing(s, t), t)
  {
  }

  lemma ReturnsElsewhere(s: State, s': State, t: nat, u: nat)
    requires Returns(s, s', t) && u != t && u in s.ops
    ensures u in s'.ops && s'.ops[u] == s.ops[u] && Owing(s', u) == Owing(s, u)
  {
    assert u in s'.ops - {t} && s.ops[u] == (s.ops - {t})[u] && s'.ops[u] == (s'.ops - {t})[u];
  }

  /** While thread `t` returns from `enqueue_node`, nothing other nodes rely on changes. */
  lemma OtherLeavingNode(s: State, s': State, t: nat, m: nat)
    requires Returns(s, s', t) && t in s.ops && m in s.nodes && m != s.ops[t].n && NodeOk(s, m)
    ensures NodeOk(s', m)
  {
    hide CellOk, InSection, Ending, Owing, Returns;
    var d := s.nodes[m];
    if d.owner.By? { ReturnsElsewhere(s, s', t, d.owner.t); }
    if d.qref.Claimed? { ReturnsElsewhere(s, s', t, d.qref.t); }
    if d.lock.LockedBy? { ReturnsElsewhere(s, s', t, d.lock.t); }
    if d.word.dropped && 0 in d.handles { ReturnsElsewhere(s, s', t, d.dropper); }
    ReturnsKeeps(s, s', t, m);
  }

  lemma ReturnsKeeps(s: State, s': State, t: nat, m: nat)
    requires Returns(s, s', t)
    ensures s'.nodes == s.nodes && s'.closing == s.closing && Holds(s', m) == Holds(s, m)
    ensures Q.Node(m) in s'.q.chain <==> Q.Node(m) in s.q.chain
  {
  }

  lemma LeavingNodes(s: State, t: nat)
    requires NodesOk(s) && Leaving(s, t) && OpOk(s, t) && NodeOk(StepPushing(s, t), s.ops[t].n)
    ensures NodesOk(StepPushing(s, t))
  {
    hide NodeOk, OpOk;
    LeavingReturns(s, t);
    forall m | m in StepPushing(s, t).nodes ensures NodeOk(StepPushing(s, t), m) {
      if m != s.ops[t].n { OtherLeavingNode(s, StepPushing(s, t), t, m); }
    }
  }

  /** The thread itself owed the push no longer, or goes on to give the reference back. */
  lemma LeavingOwn(s: State, t: nat)
    requires Leaving(s, t) && OpOk(s, t)
    ensures s.q.pushes[Q.Producer(t)].Rejected? ==>
              t in StepPushing(s, t).ops && Owing(StepPushing(s, t), t) && StepPushing(s, t).ops[t].n == s.ops[t].n
    ensures s.q.pushes[Q.Producer(t)].Pushed? ==> !Owing(s, t)
    ensures !s.ops[t].UpdCount? && !InSection(s.ops[t])
    ensures Ending(s.ops[t]) ==>
              t in StepPushing(s, t).ops && Ending(StepPushing(s, t).ops[t]) && !StepPushing(s, t).ops[t].DropFlag?
              && StepPushing(s, t).ops[t].n == s.ops[t].n && StepPushing(s, t).ops[t].h == s.ops[t].h
  {
  }

  lemma LeavingNode(s: State, t: nat)
    requires Leaving(s, t) && OpOk(s, t) && NodeOk(s, s.ops[t].n)
    ensures NodeOk(StepPushing(s, t), s.ops[t].n)
  {
    hide CellOk, InSection, Ending, Owing, Returns, StepPushing, OpOk;
    var s', d := StepPushing(s, t), s.nodes[s.ops[t].n];
    LeavingReturns(s, t);
    LeavingOwn(s, t);
    ReturnsKeeps(s, s', t, s.ops[t].n);
    if d.owner.By? && d.owner.t != t { ReturnsElsewhere(s, s', t, d.owner.t); }
    if d.qref.Claimed? { ReturnsElsewhere(s, s', t, d.qref.t); }
    if d.lock.LockedBy? { ReturnsElsewhere(s, s', t, d.lock.t); }
    if d.word.dropped && 0 in d.handles && d.dropper != t { ReturnsElsewhere(s, s', t, d.dropper); }
  }

  lemma LeavingOps(s: State, t: nat)
    requires OpsOk(s) && Leaving(s, t) && ClosedOk(s)
    ensures OpsOk(StepPushing(s, t))
  {
    var s' := StepPushing(s, t);
    forall u | u in s'.ops ensures OpOk(s', u) { assert OpOk(s, u); }
  }

  lemma LeavingRest(s: State, t: nat)
    requires Leaving(s, t) && Exclusive(s) && ConsQueueOk(s) && ConsNodeOk(s) && ClosedOk(s) && KnownOk(s)
    ensures var s' := StepPushing(s, t);
            Exclusive(s') && ConsQueueOk(s') && ConsNodeOk(s') && ClosedOk(s') && KnownOk(s')
  {
  }

  lemma PushingInv(s: State, t: nat)
    requires Inv(s) && t in s.ops && s.ops[t].Pushing?
    ensures s.ops[t].n in s.nodes && Q.Producer(t) in s.q.pushes && Inv(StepPushing(s, t))
  {
    assert OpOk(s, t) && Q.PushOk(s.q, Q.Producer(t));
    var p := s.q.pushes[Q.Producer(t)];
    if p.Pushed? || p.Rejected? {
      Q.FinishInv(s.q, Q.Producer(t));
      LeavingNode(s, t);
      LeavingNodes(s, t);
      LeavingOps(s, t);
      LeavingRest(s, t);
    } else {
      Q.PushInv(s.q, Q.Producer(t));
      var q' := InsideStep(s, t);
      PushingNodes(s, t);
      PushingOps(s, t);
      PushingRest(s, t);
    }
  }

  // ----- starting operations -----

  /** No thread is dropping handle `h` of node `n`. */
  predicate NotEnding(s: State, n: nat, h: nat) {
    forall u :: u in s.ops && s.ops[u].n == n && s.ops[u].h == h ==> !Ending(s.ops[u])
  }

  lemma CreateNodes(s: State, n: nat, queue: bool, a: Args)
    requires NodesOk(s) && OpsOk(s) && KnownOk(s) && ConsNodeOk(s) && n !in s.nodes
    ensures NodesOk(Create(s, n, queue, a))
  {
    var s' := Create(s, n, queue, a);
    forall m | m in s'.nodes ensures NodeOk(s', m) {
      assert Holds(s', m) == Holds(s, m);
      if m == n {
        assert !Holds(s, n);
        assert |{0, 1}| == 2;
      } else {
        assert NodeOk(s, m);
      }
    }
  }

  lemma CreateInv(s: State, n: nat, queue: bool, a: Args)
    requires Inv(s) && n !in s.nodes
    ensures Inv(Create(s, n, queue, a))
  {
    hide NodesOk, Q.Inv, Exclusive, ConsQueueOk, ConsNodeOk, ClosedOk, KnownOk;
    CreateNodes(s, n, queue, a);
    var s' := Create(s, n, queue, a);
    forall u | u in s'.ops ensures OpOk(s', u) { assert OpOk(s, u); }
    CreateRest(s, n, queue, a);
  }

  lemma CreateRest(s: State, n: nat, queue: bool, a: Args)
    requires Exclusive(s) && ConsQueueOk(s) && ConsNodeOk(s) && ClosedOk(s) && KnownOk(s) && n !in s.nodes
    ensures var s' := Create(s, n, queue, a);
            Exclusive(s') && ConsQueueOk(s') && ConsNodeOk(s') && ClosedOk(s') && KnownOk(s')
  {
  }

  lemma CloneNodes(s: State, n: nat, h: nat)
    requires NodesOk(s) && n in s.nodes && h !in s.nodes[n].handles && h != 0
    ensures NodesOk(Clone(s, n, h))
  {
    var s' := Clone(s, n, h);
    assert NodeOk(s, n) && CellOk(s'.nodes[n]);
    forall m | m in s'.nodes ensures NodeOk(s', m) {
      assert NodeOk(s, m);
      assert Holds(s', m) == Holds(s, m);
      if s.nodes[m].owner.By? { SameOwing(s, s', s.nodes[m].owner.t); }
    }
  }

  lemma CloneRest(s: State, n: nat, h: nat)
    requires OpsOk(s) && n in s.nodes
    requires Exclusive(s) && ConsQueueOk(s) && ConsNodeOk(s) && ClosedOk(s) && KnownOk(s)
    ensures var s' := Clone(s, n, h);
            OpsOk(s') && Exclusive(s') && ConsQueueOk(s') && ConsNodeOk(s') && ClosedOk(s') && KnownOk(s')
  {
    var s' := Clone(s, n, h);
    forall u | u in s'.ops ensures OpOk(s', u) { assert OpOk(s, u); }
  }

  /** Thread `t` may start `op`: it borrows a live handle, and owns it alone to drop it. */
  predicate CanStart(s: State, t: nat, op: Op) {
    && t !in s.ops && op.n in s.nodes && op.h in s.nodes[op.n].handles
    && match op
       case SetLoad(n, h, _) => h != 0 && NotEnding(s, n, h)
       case UpdClaim(n, h, _) => h == 0 && NotEnding(s, n, h) && !s.closing
       case DropFlag(n, h) => h == 0 && Unused(s, n, h)
       case DropHandle(n, h) => h != 0 && Unused(s, n, h)
       case _ => false
  }

  predicate Unused(s: State, n: nat, h: nat) {
    forall u :: u in s.ops ==> s.ops[u].n != n || s.ops[u].h != h
  }

  lemma StartNodes(s: State, t: nat, op: Op)
    requires NodesOk(s) && CanStart(s, t, op)
    ensures NodesOk(SetOp(s, t, op))
  {
    var s' := SetOp(s, t, op);
    forall m | m in s'.nodes ensures NodeOk(s', m) {
      assert NodeOk(s, m);
      assert Holds(s', m) == Holds(s, m);
    }
  }

  lemma StartOps(s: State, t: nat, op: Op)
    requires OpsOk(s) && CanStart(s, t, op) && NodeOk(s, op.n) && KnownOk(s)
    ensures OpsOk(SetOp(s, t, op))
  {
    var s' := SetOp(s, t, op);
    forall u | u in s'.ops ensures OpOk(s', u) { if u != t { assert OpOk(s, u); } }
  }

  lemma StartInv(s: State, t: nat, op: Op)
    requires Inv(s) && CanStart(s, t, op)
    ensures Inv(SetOp(s, t, op))
  {
    hide OpsOk, Q.Inv;
    assert NodeOk(s, op.n);
    StartNodes(s, t, op);
    StartOps(s, t, op);
  }

  // ----- the consumer -----

  /** Only the consumer's program counters, its own push and its output have changed. */
  predicate SameShared(s: State, s': State) {
    && s'.nodes == s.nodes && s'.ops == s.ops && s'.q.chain == s.q.chain && s'.closing == s.closing
    && s'.q.pushes - {Q.Consumer} == s.q.pushes - {Q.Consumer}
  }

  lemma SameProducers(s: State, s': State, t: nat)
    requires s'.q.pushes - {Q.Consumer} == s.q.pushes - {Q.Consumer}
    ensures Q.Producer(t) in s'.q.pushes <==> Q.Producer(t) in s.q.pushes
    ensures Q.Producer(t) in s.q.pushes ==> s'.q.pushes[Q.Producer(t)] == s.q.pushes[Q.Producer(t)]
  {
    assert Q.Producer(t) in s'.q.pushes <==> Q.Producer(t) in s'.q.pushes - {Q.Consumer};
    assert Q.Producer(t) in s.q.pushes <==> Q.Producer(t) in s.q.pushes - {Q.Consumer};
    if Q.Producer(t) in s.q.pushes {
      assert s'.q.pushes[Q.Producer(t)] == (s'.q.pushes - {Q.Consumer})[Q.Producer(t)];
      assert s.q.pushes[Q.Producer(t)] == (s.q.pushes - {Q.Consumer})[Q.Producer(t)];
    }
  }

  lemma SameOwing(s: State, s': State, t: nat)
    requires t in s.ops && s'.ops == s.ops && s'.q.pushes - {Q.Consumer} == s.q.pushes - {Q.Consumer}
    requires s.nodes.Keys == s'.nodes.Keys
    requires s.ops[t].n in s.nodes ==> s.nodes[s.ops[t].n].associated == s'.nodes[s.ops[t].n].associated
    ensures Owing(s', t) == Owing(s, t)
  {
    SameProducers(s, s', t);
  }

  lemma SameNodes(s: State, s': State)
    requires NodesOk(s) && SameShared(s, s') && forall n :: n in s.nodes ==> Holds(s', n) == Holds(s, n)
    ensures NodesOk(s')
  {
    forall m | m in s'.nodes ensures NodeOk(s', m) {
      assert NodeOk(s, m);
      assert Holds(s', m) == Holds(s, m);
      if s.nodes[m].owner.By? { SameOwing(s, s', s.nodes[m].owner.t); }
    }
  }

  lemma SameOps(s: State, s': State)
    requires OpsOk(s) && SameShared(s, s')
    ensures OpsOk(s')
  {
    forall u | u in s'.ops ensures OpOk(s', u) {
      assert OpOk(s, u);
      SameOwing(s, s', u);
      SameProducers(s, s', u);
    }
  }

  /** The step reads or moves private things only. */
  lemma SameInv(s: State, s': State)
    requires Inv(s) && SameShared(s, s') && Q.Inv(s'.q) && forall n :: n in s.nodes ==> Holds(s', n) == Holds(s, n)
    requires s'.q.pushes == s.q.pushes && ConsQueueOk(s') && ConsNodeOk(s')
    ensures Inv(s')
  {
    SameNodes(s, s');
    SameOps(s, s');
  }

  /** Entering or leaving `poll`. */
  lemma EnterInv(s: State, c: Cons)
    requires Inv(s) && !s.closing && (s.cons.Out? || s.cons.Polling?) && (c.Out? || c.Polling?)
    ensures Inv(Goto(s, c))
  {
    SameInv(s, Goto(s, c));
  }

  /** Entering an operation of the queue. */
  lemma CallInv(s: State, qc: Q.Cons, c: Cons)
    requires Inv(s) && s.q.cons.Idle? && (s.cons.Out? || s.cons.Polling? || s.cons.Draining?)
    requires s.closing <==> c.Draining?
    requires c.Dequeuing? || c.Preparing? || c.Draining?
    requires Q.Inv(s.q.(cons := qc)) && !qc.DeqPushEnd? && !Q.HandsOut(qc)
    requires if c.Preparing? then PrepCons(qc) else DequeueCons(qc)
    ensures Inv(Goto(s.(q := s.q.(cons := qc)), c))
  {
    var s' := Goto(s.(q := s.q.(cons := qc)), c);
    assert ConsQueueOk(s') && ConsNodeOk(s');
    SameInv(s, s');
  }

  lemma StartQueueInv(s: State)
    requires Inv(s) && !s.closing && (s.cons.Out? || s.cons.Polling?)
    ensures Inv(Goto(s.(q := Q.StartPrepare(s.q)), Preparing))
    ensures Inv(Goto(s.(q := Q.StartClear(s.q, false)), Preparing))
  {
    hide NodesOk, OpsOk, Exclusive, KnownOk, Q.Inv, ClosedOk;
    Q.LocalInv(s.q, Q.StartPrepare(s.q).cons);
    Q.LocalInv(s.q, Q.StartClear(s.q, false).cons);
    CallInv(s, Q.StartPrepare(s.q).cons, Preparing);
    CallInv(s, Q.StartClear(s.q, false).cons, Preparing);
  }

  lemma StartDequeueInv(s: State)
    requires Inv(s) && ((s.cons.Polling? && !s.closing) || (s.cons.Draining? && s.q.cons.Idle?))
    ensures Inv(StepCons(s))
  {
    var until := if s.cons.Polling? then s.cons.until else Q.Null;
    Q.LocalInv(s.q, Q.Deq(until));
    CallInv(s, Q.Deq(until), if s.cons.Polling? then Dequeuing(until) else Draining);
  }

  lemma ReturnInv(s: State)
    requires Inv(s) && ((s.cons.Dequeuing? && s.q.cons.GotDequeued?)
                        || (s.cons.Preparing? && (s.q.cons.GotPrepared? || s.q.cons.GotCleared?))
                        || (s.cons.Draining? && s.q.cons.GotDequeued?))
    ensures Inv(StepCons(s))
  {
    hide NodesOk, OpsOk, Exclusive, KnownOk, ClosedOk, Q.Inv, Holds;
    Q.ReturnInv(s.q);
    ReturnKeeps(s);
    SameInv(s, StepCons(s));
  }

  lemma ReturnKeeps(s: State)
    requires (s.cons.Dequeuing? && s.q.cons.GotDequeued?)
             || (s.cons.Preparing? && (s.q.cons.GotPrepared? || s.q.cons.GotCleared?))
             || (s.cons.Draining? && s.q.cons.GotDequeued?)
    requires ConsQueueOk(s) && ConsNodeOk(s)
    ensures ConsQueueOk(StepCons(s)) && ConsNodeOk(StepCons(s))
    ensures forall n :: Holds(StepCons(s), n) == Holds(s, n)
  {
  }

  lemma LoadingKeeps(s: State)
    requires s.cons.Loading? && ConsQueueOk(s) && ConsNodeOk(s) && s.cons.n in s.nodes && CellOk(s.nodes[s.cons.n])
    requires s.nodes[s.cons.n].owner.ConsumerHas?
    ensures ConsQueueOk(StepCons(s)) && ConsNodeOk(StepCons(s)) && forall n :: Holds(StepCons(s), n) == Holds(s, n)
  {
  }

  lemma LoadingInv(s: State)
    requires Inv(s) && s.cons.Loading?
    ensures Inv(StepCons(s))
  {
    assert NodeOk(s, s.cons.n) && Holds(s, s.cons.n);
    hide NodesOk, OpsOk, Exclusive, KnownOk, ClosedOk, Q.Inv, Holds, ConsQueueOk, ConsNodeOk;
    LoadingKeeps(s);
    SameInv(s, StepCons(s));
  }

  lemma CasingQuietKeeps(s: State)
    requires s.cons.Casing? && ConsQueueOk(s) && ConsNodeOk(s) && s.cons.n in s.nodes && CellOk(s.nodes[s.cons.n])
    requires Claim(s)
    requires s.nodes[s.cons.n].owner.ConsumerHas?
    requires s.cons.seen.dropped || Consumed(s.cons.seen) == s.cons.seen || s.nodes[s.cons.n].word != s.cons.seen
    ensures SameShared(s, StepCons(s)) && StepCons(s).q == s.q
    ensures ConsQueueOk(StepCons(s)) && ConsNodeOk(StepCons(s)) && forall n :: Holds(StepCons(s), n) == Holds(s, n)
  {
  }

  lemma CasingQuietInv(s: State)
    requires Inv(s) && s.cons.Casing?
    requires s.cons.seen.dropped || Consumed(s.cons.seen) == s.cons.seen || s.nodes[s.cons.n].word != s.cons.seen
    ensures s.cons.n in s.nodes && Inv(StepCons(s))
  {
    assert NodeOk(s, s.cons.n) && Holds(s, s.cons.n);
    assert Claim(s);
    hide NodesOk, OpsOk, Exclusive, KnownOk, ClosedOk, Q.Inv, Holds, ConsQueueOk, StepCons;
    CasingQuietKeeps(s);
    SameInv(s, StepCons(s));
  }

  /** A node the consumer holds is counted by the queue, or about to be. */
  predicate Claim(s: State) {
    s.cons.Casing? && s.cons.n in s.nodes ==> s.nodes[s.cons.n].qref.Held? || s.nodes[s.cons.n].qref.Claimed?
  }

  /** The word after the consumer's compare and swap. */
  function Swapped(d: Node): Node {
    var next := Consumed(d.word);
    d.(word := next, owner := if next.queued then d.owner else Nobody)
  }

  lemma SwappedOk(d: Node)
    requires CellOk(d) && d.owner.ConsumerHas? && !d.word.dropped
    ensures CellOk(Swapped(d)) && Swapped(d).word.rd == d.word.wr && ReadOk(Swapped(d), d.word.wr, LastToken(d))
    ensures forall op: Op, t: nat :: OpCellOk(d, op, t) ==> OpCellOk(Swapped(d), op, t)
  {
  }

  /** The consumer's compare and swap on the word it read goes through. */
  predicate Winning(s: State) {
    && s.cons.Casing? && s.cons.n in s.nodes && s.nodes[s.cons.n].word == s.cons.seen
    && !s.cons.seen.dropped && Consumed(s.cons.seen) != s.cons.seen
  }

  lemma WinningStep(s: State)
    requires Winning(s)
    ensures StepCons(s) == s.(nodes := s.nodes[s.cons.n := Swapped(s.nodes[s.cons.n])], cons := StepCons(s).cons)
    ensures forall m :: Holds(StepCons(s), m) <==> m == s.cons.n && Swapped(s.nodes[m]).word.queued
  {
    hide Consumed;
  }

  lemma CasingWinsOther(s: State, m: nat)
    requires Winning(s) && m in s.nodes && m != s.cons.n && NodeOk(s, m)
    ensures NodeOk(StepCons(s), m)
  {
    WinningStep(s);
    assert !Holds(s, m);
    hide CellOk, InSection, Ending, Owing, StepCons, Swapped, Winning;
    if s.nodes[m].owner.By? { SameOwing(s, StepCons(s), s.nodes[m].owner.t); }
  }

  lemma CasingWinsOwn(s: State)
    requires Winning(s) && NodeOk(s, s.cons.n)
    ensures NodeOk(StepCons(s), s.cons.n)
  {
    WinningStep(s);
    assert Holds(s, s.cons.n);
    SwappedOk(s.nodes[s.cons.n]);
    hide CellOk, InSection, Ending, Owing, StepCons, Consumed, Holds;
  }

  lemma CasingWinsNodes(s: State)
    requires NodesOk(s) && Winning(s)
    ensures NodesOk(StepCons(s))
  {
    hide NodeOk;
    WinningStep(s);
    forall m | m in StepCons(s).nodes ensures NodeOk(StepCons(s), m) {
      if m == s.cons.n { CasingWinsOwn(s); } else { CasingWinsOther(s, m); }
    }
  }

  lemma CasingWinsOps(s: State)
    requires NodesOk(s) && OpsOk(s) && Winning(s)
    ensures OpsOk(StepCons(s))
  {
    hide CellOk, OpCellOk;
    var s' := StepCons(s);
    var n := s.cons.n;
    assert NodeOk(s, n) && Holds(s, n);
    SwappedOk(s.nodes[n]);
    assert s'.nodes == s.nodes[n := Swapped(s.nodes[n])];
    forall u | u in s'.ops ensures OpOk(s', u) {
      assert OpOk(s, u);
      SameOwing(s, s', u);
    }
  }

  lemma CasingWinsInv(s: State)
    requires Inv(s) && Winning(s)
    ensures Inv(StepCons(s))
  {
    var n := s.cons.n;
    assert NodeOk(s, n) && Holds(s, n);
    SwappedOk(s.nodes[n]);
    CasingWinsNodes(s);
    CasingWinsOps(s);
  }

  lemma MayRequeue(s: State)
    requires Inv(s) && s.cons.Requeue?
    ensures Q.CanBegin(s.q, Q.Consumer, Q.Node(s.cons.n))
  {
    var n := s.cons.n;
    assert NodeOk(s, n) && Holds(s, n);
    forall u | u in s.q.pushes && Q.Owes(s.q.pushes[u]) ensures s.q.pushes[u].node != Q.Node(n) {
      if u.Producer? { assert OpOk(s, u.t) && Owing(s, u.t); }
    }
  }

  lemma RequeueInv(s: State)
    requires Inv(s) && s.cons.Requeue?
    ensures Inv(StepCons(s))
  {
    MayRequeue(s);
    Q.BeginInv(s.q, Q.Consumer, Q.Node(s.cons.n));
    RequeueKeeps(s);
    var s' := StepCons(s);
    SameNodes(s, s');
    SameOps(s, s');
  }

  lemma RequeueKeeps(s: State)
    requires s.cons.Requeue? && ConsQueueOk(s) && ConsNodeOk(s) && ClosedOk(s)
    ensures SameShared(s, StepCons(s)) && forall n :: Holds(StepCons(s), n) == Holds(s, n)
    ensures ConsQueueOk(StepCons(s)) && ConsNodeOk(StepCons(s)) && ClosedOk(StepCons(s))
  {
  }

  /** Inside the consumer's own `enqueue_node`, a won head CAS hands the node to the chain. */
  lemma RequeuingStep(s: State) returns (q': Q.State)
    requires s.cons.Requeuing? && s.cons.n in s.nodes && Q.Consumer in s.q.pushes && !s.q.pushes[Q.Consumer].Pushed?
    requires Q.ChainOk(s.q) && s.q.pushes[Q.Consumer].node == Q.Node(s.cons.n)
    requires Q.Owes(s.q.pushes[Q.Consumer]) ==> Q.Node(s.cons.n) !in s.q.chain
    ensures q' == Q.StepPush(s.q, Q.Consumer)
    ensures StepCons(s) ==
            (if Wins(s.q, s.q.pushes[Q.Consumer]) then
               SetNode(s.(q := q'), s.cons.n, s.nodes[s.cons.n].(owner := Chained))
             else s.(q := q'))
    ensures q'.pushes - {Q.Consumer} == s.q.pushes - {Q.Consumer}
  {
    q' := Q.StepPush(s.q, Q.Consumer);
    PushEffect(s.q, Q.Consumer);
  }

  lemma RequeuingNode(s: State, m: nat)
    requires s.cons.Requeuing? && s.cons.n in s.nodes && Q.Consumer in s.q.pushes && !s.q.pushes[Q.Consumer].Pushed?
    requires Q.ChainOk(s.q) && s.q.pushes[Q.Consumer].node == Q.Node(s.cons.n) && ClosedOk(s) && !s.closing
    requires Q.Owes(s.q.pushes[Q.Consumer]) ==> Q.Node(s.cons.n) !in s.q.chain
    requires m in s.nodes && NodeOk(s, m)
    ensures NodeOk(StepCons(s), m)
  {
    hide InSection, Ending, Owing, Q.ChainOk;
    var q' := RequeuingStep(s);
    PushEffect(s.q, Q.Consumer);
    var s' := StepCons(s);
    assert m != s.cons.n ==> Holds(s', m) == Holds(s, m) && (Q.Node(m) in s'.q.chain <==> Q.Node(m) in s.q.chain);
    if s.nodes[m].owner.By? { SameOwing(s, s', s.nodes[m].owner.t); }
  }

  lemma RequeuingNodes(s: State)
    requires NodesOk(s) && s.cons.Requeuing? && s.cons.n in s.nodes && Q.Consumer in s.q.pushes
    requires !s.q.pushes[Q.Consumer].Pushed?
    requires Q.ChainOk(s.q) && s.q.pushes[Q.Consumer].node == Q.Node(s.cons.n) && ClosedOk(s) && !s.closing
    requires Q.Owes(s.q.pushes[Q.Consumer]) ==> Q.Node(s.cons.n) !in s.q.chain
    ensures NodesOk(StepCons(s))
  {
    hide NodeOk, Q.ChainOk;
    var q' := RequeuingStep(s);
    forall m | m in StepCons(s).nodes ensures NodeOk(StepCons(s), m) { RequeuingNode(s, m); }
  }

  lemma RequeuingOps(s: State)
    requires OpsOk(s) && s.cons.Requeuing? && s.cons.n in s.nodes && Q.Consumer in s.q.pushes
    requires !s.q.pushes[Q.Consumer].Pushed?
    requires Q.ChainOk(s.q) && s.q.pushes[Q.Consumer].node == Q.Node(s.cons.n) && NodeOk(s, s.cons.n)
    requires Q.Owes(s.q.pushes[Q.Consumer]) ==> Q.Node(s.cons.n) !in s.q.chain
    ensures OpsOk(StepCons(s))
  {
    var q' := RequeuingStep(s);
    PushEffect(s.q, Q.Consumer);
    var s' := StepCons(s);
    forall u | u in s'.ops ensures OpOk(s', u) {
      assert OpOk(s, u);
      SameOwing(s, s', u);
      SameProducers(s, s', u);
      assert Wins(s.q, s.q.pushes[Q.Consumer]) ==> Holds(s, s.cons.n);
    }
  }

  lemma RequeuingInv(s: State)
    requires Inv(s) && s.cons.Requeuing? && !s.q.pushes[Q.Consumer].Pushed?
    ensures Inv(StepCons(s))
  {
    assert NodeOk(s, s.cons.n) && Q.PushOk(s.q, Q.Consumer);
    Q.PushInv(s.q, Q.Consumer);
    var q' := RequeuingStep(s);
    PushEffect(s.q, Q.Consumer);
    RequeuingNodes(s);
    RequeuingOps(s);
    RequeuingRest(s);
  }

  lemma RequeuingRest(s: State)
    requires s.cons.Requeuing? && s.cons.n in s.nodes && Q.Consumer in s.q.pushes && !s.q.pushes[Q.Consumer].Pushed?
    requires Q.ChainOk(s.q) && s.q.pushes[Q.Consumer].node == Q.Node(s.cons.n)
    requires Q.Owes(s.q.pushes[Q.Consumer]) ==> Q.Node(s.cons.n) !in s.q.chain
    requires Exclusive(s) && ConsQueueOk(s) && ConsNodeOk(s) && ClosedOk(s) && KnownOk(s)
    ensures var s' := StepCons(s); Exclusive(s') && ConsQueueOk(s') && ConsNodeOk(s') && ClosedOk(s') && KnownOk(s')
  {
    hide Q.ChainOk, StepCons;
    var q' := RequeuingStep(s);
    PushEffect(s.q, Q.Consumer);
    RequeuingClosed(s, StepCons(s));
  }

  lemma RequeuingClosed(s: State, s': State)
    requires Q.Consumer in s.q.pushes && Q.Consumer in s'.q.pushes
    requires s'.q.pushes == s.q.pushes[Q.Consumer := s'.q.pushes[Q.Consumer]]
    requires ToClosed(s'.q.pushes[Q.Consumer]) && !ToClosed(s.q.pushes[Q.Consumer]) ==> Q.Closed in s.q.chain
    requires Q.Closed in s'.q.chain <==> Q.Closed in s.q.chain
    requires s'.closing == s.closing && ClosedOk(s)
    ensures ClosedOk(s')
  {
  }

  lemma RequeuedInv(s: State)
    requires Inv(s) && s.cons.Requeuing? && s.q.pushes[Q.Consumer].Pushed?
    ensures Inv(StepCons(s))
  {
    Q.FinishInv(s.q, Q.Consumer);
    RequeuedRest(s);
    var s' := StepCons(s);
    SameNodes(s, s');
    SameOps(s, s');
  }

  lemma RequeuedRest(s: State)
    requires s.cons.Requeuing? && s.cons.n in s.nodes && Q.Consumer in s.q.pushes && s.q.pushes[Q.Consumer].Pushed?
    requires Exclusive(s) && ConsQueueOk(s) && ConsNodeOk(s) && ClosedOk(s) && KnownOk(s)
    ensures SameShared(s, StepCons(s)) && forall n :: Holds(StepCons(s), n) == Holds(s, n)
    ensures var s' := StepCons(s); Exclusive(s') && ConsQueueOk(s') && ConsNodeOk(s') && ClosedOk(s') && KnownOk(s')
  {
  }

  lemma ReadingInv(s: State)
    requires Inv(s) && s.cons.Reading?
    ensures s.cons.n in s.nodes && s.cons.slot < |s.nodes[s.cons.n].slots| && Inv(StepCons(s))
  {
    ReadingKeeps(s);
    SameInv(s, StepCons(s));
  }

  lemma ReadingKeeps(s: State)
    requires s.cons.Reading? && ConsQueueOk(s) && ConsNodeOk(s)
    ensures SameShared(s, StepCons(s)) && StepCons(s).q == s.q && forall n :: Holds(StepCons(s), n) == Holds(s, n)
    ensures ConsQueueOk(StepCons(s)) && ConsNodeOk(StepCons(s))
  {
  }

  /** The queue gives its reference back for a node the consumer holds: it was counted. */
  lemma ReleaseNodes(s: State, s': State, n: nat)
    requires NodesOk(s) && OpsOk(s) && n in s.nodes && Holds(s, n)
    requires s.nodes[n].word.dropped || s.closing
    requires s' == Goto(ReleaseQueueRef(s, n), s'.cons) && forall m :: Holds(s', m) == (m != n && Holds(s, m))
    ensures s.nodes[n].qref.Held? && NodesOk(s')
  {
    assert NodeOk(s, n);
    assert s.nodes[n].qref.Claimed? ==> OpOk(s, s.nodes[n].qref.t);
    forall m | m in s'.nodes ensures NodeOk(s', m) {
      assert NodeOk(s, m);
      if s.nodes[m].owner.By? { SameOwing(s, s', s.nodes[m].owner.t); }
    }
  }

  lemma ReleaseOps(s: State, s': State, n: nat)
    requires OpsOk(s) && n in s.nodes && s.nodes[n].owner.ConsumerHas? && s.nodes[n].qref.Held?
    requires s' == Goto(ReleaseQueueRef(s, n), s'.cons)
    ensures OpsOk(s')
  {
    forall u | u in s'.ops ensures OpOk(s', u) {
      assert OpOk(s, u);
      SameOwing(s, s', u);
    }
  }

  lemma ReleaseInv(s: State)
    requires Inv(s) && (s.cons.Dropping? || s.cons.DrainRelease?)
    ensures s.cons.n in s.nodes && Inv(StepCons(s))
  {
    var n := s.cons.n;
    var s' := StepCons(s);
    assert NodeOk(s, n) && Holds(s, n);
    ReleaseNodes(s, s', n);
    ReleaseOps(s, s', n);
  }

  // ----- the consumer inside the queue -----

  /** `dequeue_node`, `clear_sleep_marker` or `prepare_for_sleep` is under way. */
  predicate InQueue(s: State) {
    && (s.cons.Dequeuing? || s.cons.Preparing? || s.cons.Draining?)
    && !s.q.cons.Idle? && !s.q.cons.GotDequeued? && !s.q.cons.GotCleared? && !s.q.cons.GotPrepared?
  }

  /** What an operation of the consumer does to the queue, as far as nodes can tell. */
  predicate Effect(q: Q.State, q': Q.State) {
    && q'.pushes - {Q.Consumer} == q.pushes - {Q.Consumer}
    && (Hands(q, q') ==> q.tail.Node? && q'.cons.result.node == q.tail && q'.tail != Q.Sleep)
    && (Q.Closed in q'.chain ==> Q.Closed in q.chain)
    && (Q.Consumer in q'.pushes ==> q'.cons.DeqPushEnd?)
    && (Q.Consumer in q'.pushes && ToClosed(q'.pushes[Q.Consumer])
        ==> Q.Closed in q.chain || (Q.Consumer in q.pushes && ToClosed(q.pushes[Q.Consumer])))
    && !q'.cons.Idle?
    && (PrepCons(q.cons) ==> PrepCons(q'.cons))
    && (DequeueCons(q.cons) ==> DequeueCons(q'.cons))
  }

  /** The consumer pushes nothing but the end marker, and leaves the producers alone. */
  lemma ConsPushes(q: Q.State)
    requires !q.cons.GotDequeued? && !q.cons.Idle?
    requires Q.Consumer !in q.pushes || (q.cons.DeqPushEnd? && q.pushes[Q.Consumer].Pushed?)
    ensures var q' := Q.StepCons(q);
            && q'.pushes - {Q.Consumer} == q.pushes - {Q.Consumer}
            && (Q.Consumer in q'.pushes ==> q'.cons.DeqPushEnd? && !ToClosed(q'.pushes[Q.Consumer]))
  {
    hide Q.AfterNext, Q.StartClear, Q.Advance, Q.Take;
    if !q.cons.DeqHead? && !q.cons.DeqPushEnd? { QuietCons(q); }
  }

  lemma QuietCons(q: Q.State)
    requires !q.cons.DeqHead? && !q.cons.DeqPushEnd?
    ensures Q.StepCons(q).pushes == q.pushes
  {
    match q.cons
    case Deq(_) =>
    case _ =>
  }

  /** An operation of the queue goes on until its result is there. */
  lemma PrepareStays(q: Q.State)
    requires PrepCons(q.cons) && !q.cons.Idle?
    ensures PrepCons(Q.StepCons(q).cons)
  {
  }

  lemma DequeueStays(q: Q.State)
    requires DequeueCons(q.cons) && !q.cons.GotDequeued?
    ensures DequeueCons(Q.StepCons(q).cons)
  {
    match q.cons
    case Deq(_) =>
    case _ =>
  }

  lemma ConsHands(q: Q.State)
    requires Q.ChainOk(q) && Q.MarkersOk(q) && Q.ConsOk(q) && !q.cons.GotDequeued?
    ensures Hands(q, Q.StepCons(q))
            ==> q.tail.Node? && Q.StepCons(q).cons.result.node == q.tail && Q.StepCons(q).tail != Q.Sleep
  {
    Q.DataStep(q);
    if Q.HandsOut(Q.StepCons(q).cons) {
      Q.LinkedTailIsNode(q);
      Q.AdvanceChain(q);
    }
  }

  lemma ConsClosed(q: Q.State)
    ensures Q.Closed in Q.StepCons(q).chain ==> Q.Closed in q.chain
  {
    match q.cons
    case Deq(_) =>
    case DeqSkipped(_) =>
    case DeqAgain =>
    case _ =>
  }

  /** Only a node that is handed out leaves the chain. */
  predicate ChainEffect(q: Q.State, q': Q.State, n: nat) {
    Q.Node(n) in q'.chain <==> Q.Node(n) in q.chain && !(Hands(q, q') && q.tail == Q.Node(n))
  }

  lemma ConsChain(q: Q.State, n: nat)
    requires Q.ChainOk(q) && Q.MarkersOk(q) && Q.ConsOk(q) && !q.cons.GotDequeued?
    requires Q.Consumer !in q.pushes || q.cons.DeqPushEnd?
    ensures ChainEffect(q, Q.StepCons(q), n)
  {
    Q.DataStep(q);
    if Q.HandsOut(Q.StepCons(q).cons) {
      Q.AdvanceChain(q);
    } else {
      hide Q.ChainOk, Q.MarkersOk, Q.ConsOk, Q.StepCons;
      if Skips(q) { SkipsChain(q, n); } else if Swaps(q) { SwapsChain(q, n); } else { StaysChain(q); }
    }
  }

  /** The markers alone in the chain may be exchanged, and one may be skipped. */
  predicate Swaps(q: Q.State) { (q.cons.ClearCas? && q.head == Q.Sleep) || (q.cons.PrepCas? && q.head == Q.End) }
  predicate Skips(q: Q.State) { q.cons.Deq? && Q.Marker(q.tail) && Q.NextOf(q, q.tail) != Q.Null }

  lemma SkipsChain(q: Q.State, n: nat)
    requires Q.ChainOk(q) && Skips(q)
    ensures Q.Node(n) in Q.StepCons(q).chain <==> Q.Node(n) in q.chain
  {
    Q.AdvanceChain(q);
  }

  lemma SwapsChain(q: Q.State, n: nat)
    requires Q.ChainOk(q) && Q.ConsOk(q) && Swaps(q)
    ensures Q.Node(n) in Q.StepCons(q).chain <==> Q.Node(n) in q.chain
  {
    assert q.chain == [q.tail];
  }

  lemma StaysChain(q: Q.State)
    requires !Skips(q) && !Swaps(q) && !Q.HandsOut(Q.StepCons(q).cons)
    ensures Q.StepCons(q).chain == q.chain
  {
    if q.cons.Deq? || q.cons.DeqSkipped? || q.cons.DeqAgain? {
      LookStays(q);
    } else {
      hide Q.NextOf, Q.HandsOut;
    }
  }

  lemma LookStays(q: Q.State)
    requires (q.cons.Deq? || q.cons.DeqSkipped? || q.cons.DeqAgain?) && !Skips(q) && !Q.HandsOut(Q.StepCons(q).cons)
    ensures Q.StepCons(q).chain == q.chain
  {
    hide Q.AfterNext, Q.Take, Q.NextOf;
    if !q.cons.DeqAgain? {
      NextStays(q, q.cons.until, Q.NextOf(q, q.tail));
    } else if Q.NextOf(q, q.tail) != Q.Null {
      TakeHands(q);
    }
  }

  lemma NextStays(q: Q.State, until: Q.Ptr, next: Q.Ptr)
    ensures Q.HandsOut(Q.AfterNext(q, until, next).cons) || Q.AfterNext(q, until, next).chain == q.chain
  {
  }

  lemma TakeHands(q: Q.State)
    ensures Q.HandsOut(Q.Take(q, Q.NextOf(q, q.tail)).cons)
  {
  }

  lemma PushEndEffect(q: Q.State)
    requires Q.ChainOk(q) && Q.Consumer in q.pushes && Q.PushOk(q, Q.Consumer) && q.cons.DeqPushEnd?
    requires q.pushes[Q.Consumer].node.End?
    ensures Effect(q, Q.StepPush(q, Q.Consumer)) && forall n :: ChainEffect(q, Q.StepPush(q, Q.Consumer), n)
  {
    PushEffect(q, Q.Consumer);
  }

  lemma QueueEffect(s: State) returns (q': Q.State)
    requires Q.Inv(s.q) && InQueue(s) && ConsQueueOk(s)
    ensures Effect(s.q, q') && (forall n :: ChainEffect(s.q, q', n)) && Q.Inv(q') && StepQueue(s) == AfterQueue(s, q')
  {
    hide Q.ChainOk, Q.MarkersOk, Q.WakeOk, Q.FifoOk, Q.StepPush;
    if Q.Consumer in s.q.pushes && !s.q.pushes[Q.Consumer].Pushed? {
      assert Q.PushOk(s.q, Q.Consumer);
      q' := Q.StepPush(s.q, Q.Consumer);
      Q.PushInv(s.q, Q.Consumer);
      PushEndEffect(s.q);
    } else {
      q' := Q.StepCons(s.q);
      Q.ConsInv(s.q);
      ConsPushes(s.q);
      if s.cons.Preparing? { PrepareStays(s.q); } else { DequeueStays(s.q); }
      ConsHands(s.q);
      ConsClosed(s.q);
      forall n ensures ChainEffect(s.q, q', n) { ConsChain(s.q, n); }
    }
  }

  lemma HoldsHanded(s: State, q': Q.State, m: nat)
    requires InQueue(s) && Effect(s.q, q') && KnownOk(s) && Q.ChainOk(s.q) && (s.cons.Preparing? ==> PrepCons(s.q.cons))
    ensures !Holds(s, m) && (Holds(AfterQueue(s, q'), m) <==> Hands(s.q, q') && s.q.tail == Q.Node(m))
  {
  }

  lemma StepQueueNode(s: State, q': Q.State, m: nat)
    requires m in s.nodes && NodeOk(s, m) && InQueue(s) && Effect(s.q, q') && ChainEffect(s.q, q', m)
    requires KnownOk(s) && Q.ChainOk(s.q) && (s.cons.Preparing? ==> PrepCons(s.q.cons))
    ensures NodeOk(AfterQueue(s, q'), m)
  {
    hide InSection, Ending, Owing;
    HoldsHanded(s, q', m);
    if s.nodes[m].owner.By? { SameOwing(s, AfterQueue(s, q'), s.nodes[m].owner.t); }
  }

  lemma StepQueueNodes(s: State, q': Q.State)
    requires NodesOk(s) && InQueue(s) && Effect(s.q, q') && (forall n :: ChainEffect(s.q, q', n))
    requires KnownOk(s) && Q.ChainOk(s.q) && (s.cons.Preparing? ==> PrepCons(s.q.cons))
    ensures NodesOk(AfterQueue(s, q'))
  {
    hide NodeOk, Q.ChainOk, KnownOk, ChainEffect, Effect, InQueue;
    forall m | m in AfterQueue(s, q').nodes ensures NodeOk(AfterQueue(s, q'), m) { StepQueueNode(s, q', m); }
  }

  /** An operation relies on nothing of its node's owner. */
  lemma OwnerCell(s: State, s': State, u: nat)
    requires u in s.ops && s.ops[u].n in s.nodes && OpCellOk(s.nodes[s.ops[u].n], s.ops[u], u) && s.ops[u].n in s'.nodes
    requires s'.nodes[s.ops[u].n] == s.nodes[s.ops[u].n].(owner := s'.nodes[s.ops[u].n].owner)
    ensures OpCellOk(s'.nodes[s.ops[u].n], s.ops[u], u)
  {
  }

  lemma StepQueueOp(s: State, q': Q.State, u: nat)
    requires u in s.ops && OpOk(s, u) && NodeOk(s, s.ops[u].n) && Effect(s.q, q') && KnownOk(s) && Q.ChainOk(s.q)
    ensures OpOk(AfterQueue(s, q'), u)
  {
    hide OpCellOk, Owing;
    OwnerCell(s, AfterQueue(s, q'), u);
    SameOwing(s, AfterQueue(s, q'), u);
    SameProducers(s, AfterQueue(s, q'), u);
  }

  lemma StepQueueOps(s: State, q': Q.State)
    requires NodesOk(s) && OpsOk(s) && Effect(s.q, q') && KnownOk(s) && Q.ChainOk(s.q)
    ensures OpsOk(AfterQueue(s, q'))
  {
    hide NodeOk, Q.ChainOk, KnownOk, Effect;
    forall u | u in AfterQueue(s, q').ops ensures OpOk(AfterQueue(s, q'), u) {
      assert OpOk(s, u);
      StepQueueOp(s, q', u);
    }
  }

  lemma StepQueueKnown(s: State, q': Q.State)
    requires Effect(s.q, q') && (forall n :: ChainEffect(s.q, q', n)) && ClosedOk(s) && KnownOk(s)
    ensures ClosedOk(AfterQueue(s, q')) && KnownOk(AfterQueue(s, q'))
  {
    var s' := AfterQueue(s, q');
    forall n | Q.Node(n) in s'.q.chain ensures n in s'.nodes { assert ChainEffect(s.q, q', n); }
    forall t | Q.Producer(t) in s'.q.pushes ensures t in s'.ops { SameProducers(s, s', t); }
    forall t | t in s'.q.pushes && ToClosed(s'.q.pushes[t]) ensures s'.closing {
      if t.Producer? { SameProducers(s, s', t.t); }
    }
  }

  lemma StepQueueCons(s: State, q': Q.State)
    requires InQueue(s) && Effect(s.q, q') && Q.ChainOk(s.q) && KnownOk(s)
    requires Exclusive(s) && ConsQueueOk(s) && ConsNodeOk(s)
    ensures Exclusive(AfterQueue(s, q')) && ConsQueueOk(AfterQueue(s, q')) && ConsNodeOk(AfterQueue(s, q'))
  {
  }

  lemma StepQueueInv(s: State)
    requires Inv(s) && InQueue(s)
    ensures StepCons(s) == StepQueue(s) && Inv(StepCons(s))
  {
    var q' := QueueEffect(s);
    StepQueueNodes(s, q');
    StepQueueOps(s, q');
    StepQueueKnown(s, q');
    StepQueueCons(s, q');
  }

  // ----- closing -----

  lemma StartCloseInv(s: State)
    requires Inv(s) && CanClose(s)
    ensures Inv(StartClose(s))
  {
    Q.BeginInv(s.q, Q.Consumer, Q.Closed);
    var s' := StartClose(s);
    StartCloseKeeps(s);
    StartCloseNodes(s);
    StartCloseOps(s);
  }

  lemma StartCloseNodes(s: State)
    requires NodesOk(s) && CanClose(s)
    ensures NodesOk(StartClose(s))
  {
    var s' := StartClose(s);
    assert s'.q.pushes - {Q.Consumer} == s.q.pushes - {Q.Consumer};
    forall m | m in s'.nodes ensures NodeOk(s', m) {
      assert NodeOk(s, m) && Holds(s', m) == Holds(s, m);
      if s.nodes[m].owner.By? { SameOwing(s, s', s.nodes[m].owner.t); }
    }
  }

  lemma StartCloseOps(s: State)
    requires OpsOk(s) && CanClose(s)
    ensures OpsOk(StartClose(s))
  {
    var s' := StartClose(s);
    assert s'.q.pushes - {Q.Consumer} == s.q.pushes - {Q.Consumer};
    forall u | u in s'.ops ensures OpOk(s', u) {
      assert OpOk(s, u);
      SameOwing(s, s', u);
      SameProducers(s, s', u);
    }
  }

  /** `Poll` is dropped: no thread can still be borrowing it for an `update`. */
  predicate CanClose(s: State) {
    && s.cons.Out? && !s.closing && Q.CanBegin(s.q, Q.Consumer, Q.Closed)
    && forall t :: t in s.ops ==> !Updating(s.ops[t])
  }

  function StartClose(s: State): State {
    s.(q := Q.Begin(s.q, Q.Consumer, Q.Closed), cons := Closing, closing := true)
  }

  /** The closed marker is nowhere yet, so `drop` meets the queue's obligation. */
  lemma MayClose(s: State)
    requires Inv(s) && s.cons.Out? && !s.closing
    ensures Q.CanBegin(s.q, Q.Consumer, Q.Closed)
  {
    forall u | u in s.q.pushes && Q.Owes(s.q.pushes[u]) ensures s.q.pushes[u].node != Q.Closed {
      assert Q.PushOk(s.q, u);
    }
  }

  lemma StartCloseKeeps(s: State)
    requires CanClose(s) && ConsQueueOk(s) && ClosedOk(s) && KnownOk(s)
    ensures ConsQueueOk(StartClose(s)) && ConsNodeOk(StartClose(s)) && ClosedOk(StartClose(s)) && KnownOk(StartClose(s))
    ensures forall n :: Holds(StartClose(s), n) == Holds(s, n)
    ensures StartClose(s).q.pushes - {Q.Consumer} == s.q.pushes - {Q.Consumer}
  {
  }

  /** Pushing the closed marker hands no node over. */
  lemma ClosingStep(s: State) returns (q': Q.State)
    requires s.cons.Closing? && Q.ChainOk(s.q) && Q.Consumer in s.q.pushes && s.q.pushes[Q.Consumer].node == Q.Closed
    ensures q' == StepCons(s).q && q'.pushes - {Q.Consumer} == s.q.pushes - {Q.Consumer}
    ensures forall n :: Q.Node(n) in q'.chain <==> Q.Node(n) in s.q.chain
    ensures StepCons(s) == s.(q := q', cons := StepCons(s).cons)
    ensures Q.Consumer in q'.pushes <==> StepCons(s).cons.Closing?
    ensures StepCons(s).cons.Closing? || StepCons(s).cons.Draining?
    ensures Q.Consumer in q'.pushes ==> q'.pushes[Q.Consumer].node == Q.Closed
    ensures q'.cons == s.q.cons
  {
    q' := StepCons(s).q;
    if !s.q.pushes[Q.Consumer].Pushed? { PushEffect(s.q, Q.Consumer); }
  }

  lemma ClosingInv(s: State)
    requires Inv(s) && s.cons.Closing?
    ensures Inv(StepCons(s))
  {
    assert Q.PushOk(s.q, Q.Consumer);
    if s.q.pushes[Q.Consumer].Pushed? { Q.FinishInv(s.q, Q.Consumer); } else { Q.PushInv(s.q, Q.Consumer); }
    var q' := ClosingStep(s);
    var s' := StepCons(s);
    ClosingNodes(s, s');
    ClosingOps(s, s');
    ClosingRest(s, s');
  }

  lemma ClosingRest(s: State, s': State)
    requires s.cons.Closing? && s' == s.(q := s'.q, cons := s'.cons) && (s'.cons.Closing? || s'.cons.Draining?)
    requires s'.q.pushes - {Q.Consumer} == s.q.pushes - {Q.Consumer} && s'.q.cons.Idle?
    requires forall n :: Q.Node(n) in s'.q.chain <==> Q.Node(n) in s.q.chain
    requires Q.Consumer in s'.q.pushes <==> s'.cons.Closing?
    requires Q.Consumer in s'.q.pushes ==> s'.q.pushes[Q.Consumer].node == Q.Closed
    requires Exclusive(s) && ConsQueueOk(s) && ClosedOk(s) && KnownOk(s)
    ensures Exclusive(s') && ConsQueueOk(s') && ConsNodeOk(s') && ClosedOk(s') && KnownOk(s')
  {
    forall t | Q.Producer(t) in s'.q.pushes ensures t in s'.ops { SameProducers(s, s', t); }
  }

  lemma ClosingNodes(s: State, s': State)
    requires NodesOk(s) && s.cons.Closing? && s' == s.(q := s'.q, cons := s'.cons)
    requires s'.cons.Closing? || s'.cons.Draining?
    requires s'.q.pushes - {Q.Consumer} == s.q.pushes - {Q.Consumer} && s.q.cons.Idle? && s'.q.cons.Idle?
    requires forall n :: Q.Node(n) in s'.q.chain <==> Q.Node(n) in s.q.chain
    ensures NodesOk(s')
  {
    forall m | m in s'.nodes ensures NodeOk(s', m) {
      assert NodeOk(s, m) && Holds(s', m) == Holds(s, m);
      if s.nodes[m].owner.By? { SameOwing(s, s', s.nodes[m].owner.t); }
    }
  }

  lemma ClosingOps(s: State, s': State)
    requires OpsOk(s) && s' == s.(q := s'.q, cons := s'.cons)
    requires s'.q.pushes - {Q.Consumer} == s.q.pushes - {Q.Consumer}
    ensures OpsOk(s')
  {
    forall u | u in s'.ops ensures OpOk(s', u) {
      assert OpOk(s, u);
      SameOwing(s, s', u);
      SameProducers(s, s', u);
    }
  }
}
