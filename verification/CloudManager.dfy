/** The host's replacement of an expired workspace machine, on top of a registry that other
    coordinators use at the same time. */
module CloudManager {
  import opened Common
  import opened CloudTypes
  import opened CloudRegistry
  import opened CloudRuns

  datatype Outcome = Replaced(binding: Binding) | Refused | Unready | Stale | TimedOut | RuntimeFailed(error: Error)

  /** One call of the registry: what is stored when it ends, and what it returned. */
  datatype Seen = Seen(disk: Option<Binding>, result: Result)

  /** What the manager asks the registry to do. */
  datatype Ask = AskRecover | AskDestroy(handle: Handle) | AskReconcile | AskEnsure

  /** A request that goes out when `after` answers have been seen. */
  datatype Asked = Asked(ask: Ask, after: nat)

  /** A later record, or the same. */
  predicate Later(disk: Option<Binding>, disk': Option<Binding>) {
    disk.Some? ==> disk'.Some? && Follows(disk.value, disk'.value)
  }

  /** What a registry can have answered, whatever other coordinators did in between: results are
      what is stored, and stored records only go forward. */
  ghost predicate Plausible(seen: seq<Seen>) {
    && (forall i :: 0 <= i < |seen| && seen[i].result.Ok? ==> seen[i].disk == Some(seen[i].result.binding))
    && (forall i, j :: 0 <= i < j < |seen| ==> Later(seen[i].disk, seen[j].disk))
  }

  // ---- the registry's answers are plausible ----

  /** What the caller of a step is told, if its operation ends there. */
  function ResultOf(c: Config, s: State, step: Step): Option<Result>
    requires Enabled(s, step)
  {
    match step
    case StepVanish => None
    case StepReply(reply, write) => Some(Finish(s.disk, s.call.value, reply, write).result)
    case _ => match Begin(c, s.disk, step) case Ended(_, result) => Some(result) case Calling(_, _) => None
  }

  lemma FinishReturnsStored(disk: Option<Binding>, call: Call, reply: Reply, write: Write)
    requires CallOk(disk, call)
    ensures var saved := Finish(disk, call, reply, write); saved.result.Ok? ==> saved.disk == Some(saved.result.binding)
  {
  }

  lemma BeginReturnsStored(c: Config, disk: Option<Binding>, step: Step)
    requires !step.StepReply? && !step.StepVanish?
    ensures var begun := Begin(c, disk, step);
            begun.Ended? && begun.result.Ok? ==> begun.disk == Some(begun.result.binding)
  {
  }

  /** A binding that an operation returns is the one stored at that moment. */
  lemma ReturnsWhatIsStored(c: Config, s: State, step: Step, b: Binding)
    requires Inv(c, s) && Enabled(s, step) && ResultOf(c, s, step) == Some(Ok(b))
    ensures Apply(c, s, step).disk == Some(b)
  {
    hide Begin, Finish;
    if step.StepReply? {
      FinishReturnsStored(s.disk, s.call.value, step.reply, step.write);
    } else {
      BeginReturnsStored(c, s.disk, step);
    }
  }

  /** Calls that end at the moments `at` of a run see plausible answers. */
  lemma RunsArePlausible(c: Config, run: seq<State>, steps: seq<Step>, at: seq<nat>, seen: seq<Seen>)
    requires IsRun(c, run, steps) && |at| == |seen|
    requires forall i :: 0 <= i < |at| ==> at[i] < |run| && seen[i].disk == run[at[i]].disk
    requires forall i, j :: 0 <= i < j < |at| ==> at[i] <= at[j]
    requires forall i {:trigger seen[i]} :: 0 <= i < |at| && seen[i].result.Ok? ==>
               at[i] > 0 && ResultOf(c, run[at[i] - 1], steps[at[i] - 1]) == Some(seen[i].result)
    ensures Plausible(seen)
  {
    hide Apply, Enabled, ResultOf, Follows;
    forall i | 0 <= i < |seen| && seen[i].result.Ok? ensures seen[i].disk == Some(seen[i].result.binding) {
      RunInv(c, run, steps, at[i] - 1);
      ReturnsWhatIsStored(c, run[at[i] - 1], steps[at[i] - 1], seen[i].result.binding);
    }
    forall i, j | 0 <= i < j < |seen| ensures Later(seen[i].disk, seen[j].disk) {
      if seen[i].disk.Some? { DestroyIsOneWay(c, run, steps, at[i], at[j]); }
    }
  }

  // ---- replacing ----

  /** The record says that `handle`, the machine of `a`, is destroyed. */
  predicate Confirms(disk: Option<Binding>, a: Allocation, handle: Handle) {
    disk.Some? && disk.value.retired && disk.value.allocation == a && disk.value.KnownHandle() == Some(handle)
  }

  predicate Harmless(asked: Asked) { asked.ask.AskRecover? || asked.ask.AskReconcile? }

  /** Each request goes out after the answer to the one before. */
  ghost predicate InTurn(asked: seq<Asked>, from: nat, to: nat) {
    && (forall k :: 0 <= k < |asked| ==> from <= asked[k].after <= to)
    && (forall k, l :: 0 <= k < l < |asked| ==> asked[k].after < asked[l].after)
  }

  /** Nothing is asked to be destroyed or made, and each request goes out after the answer before. */
  ghost predicate Quiet(asked: seq<Asked>, from: nat, to: nat) {
    (forall k :: 0 <= k < |asked| ==> Harmless(asked[k])) && InTurn(asked, from, to)
  }

  /** Every request has been answered. */
  ghost predicate AllBefore(asked: seq<Asked>, to: nat) { forall k :: 0 <= k < |asked| ==> asked[k].after < to }

  ghost predicate Answered(asked: seq<Asked>, from: nat, to: nat) { Quiet(asked, from, to) && AllBefore(asked, to) }

  /** The last answer seen before this moment shows the record of just this machine. */
  predicate Rechecked(seen: seq<Seen>, after: nat, a: Allocation, handle: Handle) {
    && 0 < after <= |seen| && seen[after - 1].disk.Some?
    && seen[after - 1].disk.value.allocation == a && seen[after - 1].disk.value.KnownHandle() == Some(handle)
  }

  /** Destroying was asked for at `d` and nowhere else, of the machine that is meant and right
      after looking at its record again; nothing new was asked for. */
  ghost predicate DestroysAt(asked: seq<Asked>, d: nat, h: Handle, seen: seq<Seen>, expired: Binding,
                             expected: Option<Handle>) {
    && d < |asked| && asked[d].ask == AskDestroy(h)
    && (forall k :: 0 <= k < |asked| && k != d ==> Harmless(asked[k]))
    && Meant(h, expired, expected) && Rechecked(seen, asked[d].after, expired.allocation, h)
  }

  /** At most one machine is destroyed, once: the expected one and that of the expired record. A
      new one is asked for only at the end, after the destroy, and only when the last answer seen
      before shows that this machine's destruction is stored. */
  ghost predicate Careful(asked: seq<Asked>, seen: seq<Seen>, expired: Binding, expected: Option<Handle>) {
    && InTurn(asked, 0, |seen|)
    && (|| (forall k :: 0 <= k < |asked| ==> Harmless(asked[k]))
        || (exists d: nat, h :: DestroysAt(asked, d, h, seen, expired, expected))
        || (asked != [] && asked[|asked| - 1].ask == AskEnsure
            && Confirmed(asked[..|asked| - 1], asked[|asked| - 1].after, seen, expired, expected)))
  }

  /** Before the answer numbered `after`, and after the destroy was asked for, its end was seen. */
  ghost predicate Confirmed(asked: seq<Asked>, after: nat, seen: seq<Seen>, expired: Binding,
                            expected: Option<Handle>) {
    exists d: nat, h :: DestroysAt(asked, d, h, seen, expired, expected)
                        && asked[d].after < after <= |seen| && Confirms(seen[after - 1].disk, expired.allocation, h)
  }

  predicate Meant(h: Handle, expired: Binding, expected: Option<Handle>) {
    (expected.Some? ==> h == expected.value) && (expired.status.Some? ==> h == expired.status.value.handle)
  }

  /** Whether an expected handle can be that of the expired record. */
  predicate Matches(expected: Option<Handle>, expired: Binding) {
    expected.Some? ==>
      && expected.value.owner == expired.allocation.owner && expected.value.generation == expired.allocation.generation
      && expected.value.provider == expired.allocation.provider
      && (expired.status.Some? ==> expired.status.value.handle == expected.value)
  }

  /** `b` is the answer to the last request, which was for a new machine. */
  predicate Answers(asked: seq<Asked>, seen: seq<Seen>, b: Binding) {
    && asked != [] && asked[|asked| - 1].ask == AskEnsure && asked[|asked| - 1].after < |seen|
    && seen[asked[|asked| - 1].after].result == Ok(b)
  }

  /** The `k`th answer about the destruction, from `at` on: each round of waiting looks at the record
      twice and reconciles. */
  function RoundAt(at: nat, k: nat): nat { at + 3 * k }

  /** What the record says there is of just this machine. */
  predicate Of(seen: seq<Seen>, i: nat, a: Allocation, handle: Handle) {
    && i < |seen| && seen[i].result.Ok?
    && seen[i].result.binding.allocation == a && seen[i].result.binding.KnownHandle() == Some(handle)
  }

  /** The answer at `i` is not the end yet, and nobody writes to the record during the round. */
  predicate StillGoing(seen: seq<Seen>, i: nat, a: Allocation, handle: Handle) {
    && Of(seen, i, a, handle) && i + 2 < |seen| && seen[i].result.binding.pending == Some(Destroy)
    && seen[i + 1].disk == Some(seen[i].result.binding) == seen[i + 2].disk
  }

  /** The answer at `i` is that the machine is destroyed, and that is what is stored. */
  predicate Gone(seen: seq<Seen>, i: nat, a: Allocation, handle: Handle) {
    && Of(seen, i, a, handle) && i + 1 < |seen|
    && seen[i].result.binding.retired && seen[i].result.binding.pending == None
    && seen[i + 1].disk == Some(seen[i].result.binding)
  }

  /** From the answer at `at` on, the destruction is confirmed after `rounds` rounds. */
  ghost predicate ComesToAnEnd(seen: seq<Seen>, at: nat, a: Allocation, handle: Handle, rounds: nat) {
    && (forall k :: 0 <= k < rounds ==> StillGoing(seen, RoundAt(at, k), a, handle))
    && Gone(seen, RoundAt(at, rounds), a, handle)
  }

  /** From the request to destroy on, answered at `at`, all goes well. */
  ghost predicate GoesWell(seen: seq<Seen>, at: nat, expired: Binding, handle: Handle, rounds: nat) {
    && ComesToAnEnd(seen, at, expired.allocation, handle, rounds)
    && RoundAt(at, rounds) + 2 < |seen| && seen[RoundAt(at, rounds) + 2].result.Ok?
    && Succeeds(seen[RoundAt(at, rounds) + 2].result.binding, expired)
  }

  /** The machine of the expired record needs no inspection to be known. */
  predicate IsKnown(expired: Binding) { expired.retired || (expired.pending == Some(Destroy) && expired.status.Some?) }

  /** What an inspection may change of the expired record. */
  predicate Finds(expired: Binding, recovered: Binding) {
    && recovered == expired.(status := recovered.status, revision := recovered.revision) && !recovered.retired
    && recovered.revision == if recovered.status == expired.status then expired.revision else expired.revision + 1
  }

  /** A replacement that nothing disturbs: the record stays as it is but for what the manager's own
      requests do to it, every request is answered, the machine that is meant is destroyed after
      some rounds of waiting, and a new one is there. */
  ghost predicate Undisturbed(expired: Binding, expected: Option<Handle>, seen: seq<Seen>, handle: Handle,
                              rounds: nat) {
    var at := if IsKnown(expired) then 1 else 2;
    && Matches(expected, expired) && Meant(handle, expired, expected) && at + 1 < |seen|
    && seen[0].disk == Some(expired)
    && (!IsKnown(expired) ==> seen[1].result.Ok? && Finds(expired, seen[1].result.binding))
    && seen[at].disk.Some? && seen[at].disk.value.KnownHandle() == Some(handle)
    && seen[at].disk.value == (if IsKnown(expired) then expired else seen[1].result.binding)
    && GoesWell(seen, at + 1, expired, handle, rounds)
  }

  /** The machine to destroy: known already, or found by an inspection that changed nothing else. */
  method Recover(expired: Binding, seen: seq<Seen>, at: nat) returns (outcome: Outcome, i: nat, ghost asked: seq<Asked>)
    requires Plausible(seen) && 0 < at <= |seen| && seen[at - 1].disk == Some(expired)
    ensures at <= i <= |seen| && Quiet(asked, at, i)
    ensures outcome.Replaced? ==> outcome.binding.allocation == expired.allocation && Answered(asked, at, i)
    ensures outcome.Replaced? && expired.status.Some? ==> outcome.binding.KnownHandle() == expired.KnownHandle()
    ensures IsKnown(expired) ==> outcome == Replaced(expired) && i == at
    ensures !IsKnown(expired) && at < |seen| && seen[at].result.Ok? && Finds(expired, seen[at].result.binding) ==>
              outcome == Replaced(seen[at].result.binding) && i == at + 1
    ensures !outcome.Refused?
  {
    i, asked := at, [];
    if expired.retired || (expired.pending == Some(Destroy) && expired.status.Some?) {
      outcome := Replaced(expired);
      return;
    }
    asked := [Asked(AskRecover, i)];
    if i == |seen| {
      outcome := TimedOut;
      return;
    }
    i := i + 1;
    if seen[i - 1].result.Err? {
      outcome := RuntimeFailed(seen[i - 1].result.error);
      return;
    }
    var recovered := seen[i - 1].result.binding;
    assert Later(seen[at - 1].disk, seen[i - 1].disk);
    var revision := if recovered.status == expired.status then expired.revision else expired.revision + 1;
    if recovered.allocation != expired.allocation || recovered.pending != expired.pending
       || recovered.lastError != expired.lastError || recovered.retired || recovered.revision != revision
    {
      outcome := Stale;
      return;
    }
    outcome := Replaced(recovered);
  }

  /** Waits until the destruction of `handle` is confirmed, replaying the durable intent. */
  method AwaitDestroyed(expired: Binding, handle: Handle, first: Binding, seen: seq<Seen>, at: nat,
                        ghost rounds: nat)
    returns (outcome: Outcome, i: nat, ghost asked: seq<Asked>)
    requires 0 < at <= |seen| && seen[at - 1].result == Ok(first)
    ensures at <= i <= |seen| && Quiet(asked, at, i) && !outcome.Refused?
    ensures outcome.Replaced? ==>
              at < i && Answered(asked, at, i) && Confirms(seen[i - 1].disk, expired.allocation, handle)
    ensures ComesToAnEnd(seen, at - 1, expired.allocation, handle, rounds) ==>
              outcome.Replaced? && i == RoundAt(at - 1, rounds) + 2
  {
    hide ComesToAnEnd, Quiet, Answered;
    var destroyed := first;
    i, asked := at, [];
    NothingAsked(at);
    ghost var n, ends := 0, ComesToAnEnd(seen, at - 1, expired.allocation, handle, rounds);
    while true
      invariant at <= i <= |seen| && Answered(asked, at, i)
      invariant i == RoundAt(at, n) && seen[i - 1].result == Ok(destroyed) && (ends ==> n <= rounds)
      decreases |seen| - i
    {
      if ends {
        Round(seen, at - 1, expired.allocation, handle, rounds, n);
        if n < rounds { Round(seen, at - 1, expired.allocation, handle, rounds, n + 1); }
      }
      AnsweredStill(asked, at, i);
      if destroyed.allocation != expired.allocation || destroyed.KnownHandle() != Some(handle) {
        return Stale, i, asked;
      }
      if destroyed.retired && destroyed.pending == None {
        break;
      }
      if destroyed.pending != Some(Destroy) {
        return Unready, i, asked;
      }
      // looks before and after the delay, then reconciles
      if i == |seen| {
        return TimedOut, i, asked;
      }
      if seen[i].disk != Some(destroyed) {
        return Stale, i + 1, asked;
      }
      i := i + 1;
      if i == |seen| {
        return TimedOut, i, asked;
      }
      if seen[i].disk != Some(destroyed) {
        return Stale, i + 1, asked;
      }
      i := i + 1;
      AsksMore(asked, at, i);
      asked := asked + [Asked(AskReconcile, i)];
      if i == |seen| {
        return TimedOut, i, asked;
      }
      i := i + 1;
      if seen[i - 1].result.Err? {
        return RuntimeFailed(seen[i - 1].result.error), i, asked;
      }
      destroyed, n := seen[i - 1].result.binding, n + 1;
    }
    if i == |seen| {
      return TimedOut, i, asked;
    }
    i := i + 1;
    outcome := if seen[i - 1].disk != Some(destroyed) then Stale else Replaced(destroyed);
  }

  lemma NothingAsked(at: nat)
    ensures Answered([], at, at)
  {
  }

  lemma AnsweredStill(asked: seq<Asked>, from: nat, to: nat)
    requires Answered(asked, from, to)
    ensures forall to' :: to <= to' ==> Quiet(asked, from, to') && Answered(asked, from, to')
  {
  }

  lemma AsksMore(asked: seq<Asked>, from: nat, to: nat)
    requires Answered(asked, from, to) && from <= to
    ensures Quiet(asked + [Asked(AskReconcile, to)], from, to)
    ensures Answered(asked + [Asked(AskReconcile, to)], from, to + 1)
  {
  }

  /** Where a wait that comes to an end is after `n` rounds. */
  lemma Round(seen: seq<Seen>, at: nat, a: Allocation, handle: Handle, rounds: nat, n: nat)
    requires ComesToAnEnd(seen, at, a, handle, rounds) && n <= rounds
    ensures if n == rounds then Gone(seen, RoundAt(at, n), a, handle) else StillGoing(seen, RoundAt(at, n), a, handle)
  {
  }

  /** `replace_expired_binding`: each of its calls of the registry sees the next element of `seen`,
      and the deadline passes where `seen` ends, while the last request may be out. */
  method ReplaceExpiredBinding(expired: Binding, expected: Option<Handle>, spec: Spec, now: nat, durable: bool,
                               seen: seq<Seen>)
    returns (outcome: Outcome, ghost asked: seq<Asked>)
    requires Plausible(seen)
    ensures Careful(asked, seen, expired, expected)
    ensures outcome.Replaced? ==> Succeeds(outcome.binding, expired) && Answers(asked, seen, outcome.binding)
    ensures outcome.Refused?
            <==> !spec.Valid() || (expired.allocation.launch.Some?
                                   && (expired.allocation.launch.value.expiresAt > now || !durable))
    ensures outcome.Refused? || !Matches(expected, expired) ==> asked == [] && !outcome.Replaced?
    ensures (exists handle, rounds: nat :: Undisturbed(expired, expected, seen, handle, rounds))
            && !outcome.Refused? && expired.allocation.launch.Some?
            ==> outcome.Replaced?
  {
    asked := [];
    ghost var rounds: nat := 0;
    if h, n: nat :| Undisturbed(expired, expected, seen, h, n) { rounds := n; }
    if !spec.Valid() {
      return Refused, asked;
    }
    if expired.allocation.launch == None {
      return Unready, asked;
    }
    if expired.allocation.launch.value.expiresAt > now || !durable {
      return Refused, asked;
    }
    if !Matches(expected, expired) {
      return Stale, asked;
    }
    if |seen| == 0 {
      return TimedOut, asked;
    }
    if seen[0].disk != Some(expired) {
      return Stale, asked;
    }
    var found, i;
    found, i, asked := Recover(expired, seen, 1);
    if !found.Replaced? {
      return found, asked;
    }
    var recovered := found.binding;
    if recovered.status == None {
      return Unready, asked;
    }
    var handle := recovered.status.value.handle;
    if expected.Some? && expected.value != handle {
      return Stale, asked;
    }
    if i == |seen| {
      return TimedOut, asked;
    }
    if seen[i].disk != Some(recovered) {
      return Stale, asked;
    }
    i := i + 1;
    outcome, asked := DestroyAndEnsure(expired, expected, handle, seen, i, asked, rounds);
  }

  /** From the request to destroy on; the stored record was looked at just before. */
  method DestroyAndEnsure(expired: Binding, expected: Option<Handle>, handle: Handle, seen: seq<Seen>, at: nat,
                          ghost before: seq<Asked>, ghost rounds: nat)
    returns (outcome: Outcome, ghost asked: seq<Asked>)
    requires Rechecked(seen, at, expired.allocation, handle) && Meant(handle, expired, expected)
    requires Answered(before, 0, at)
    ensures Careful(asked, seen, expired, expected)
    ensures !outcome.Refused?
    ensures outcome.Replaced? ==> Succeeds(outcome.binding, expired) && Answers(asked, seen, outcome.binding)
    ensures GoesWell(seen, at, expired, handle, rounds) ==> outcome.Replaced?
  {
    ghost var d := |before|;
    asked := before + [Asked(AskDestroy(handle), at)];
    if GoesWell(seen, at, expired, handle, rounds) { Round(seen, at, expired.allocation, handle, rounds, 0); }
    assert GoesWell(seen, at, expired, handle, rounds) ==>
        at < |seen| && seen[at].result.Ok? && ComesToAnEnd(seen, at, expired.allocation, handle, rounds)
        && RoundAt(at, rounds) + 2 < |seen| && seen[RoundAt(at, rounds) + 2].result.Ok?
        && Succeeds(seen[RoundAt(at, rounds) + 2].result.binding, expired);
    hide GoesWell, Careful, InTurn, ComesToAnEnd, Gone, StillGoing, DestroysAt, Confirmed, Meant, Rechecked, RoundAt,
         Quiet,
      Answered, AllBefore, Confirms;
    DestroyBegins(before, at, handle, seen, expired, expected);
    DestroyIsCareful(asked, at, d, handle, seen, expired, expected);
    if at == |seen| {
      return TimedOut, asked;
    }
    var i := at + 1;
    if seen[i - 1].result.Err? {
      return RuntimeFailed(seen[i - 1].result.error), asked;
    }
    var waited, j;
    ghost var more;
    waited, j, more := AwaitDestroyed(expired, handle, seen[i - 1].result.binding, seen, i, rounds);
    DestroyGoesOn(asked, more, i, j, d, handle, seen, expired, expected);
    asked := asked + more;
    DestroyIsCareful(asked, j, d, handle, seen, expired, expected);
    if !waited.Replaced? {
      return waited, asked;
    }
    EnsureIsCareful(asked, d, handle, j, seen, expired, expected);
    asked := asked + [Asked(AskEnsure, j)];
    if j == |seen| {
      return TimedOut, asked;
    }
    if seen[j].result.Err? {
      return RuntimeFailed(seen[j].result.error), asked;
    }
    var replacement := seen[j].result.binding;
    outcome := if replacement.allocation.owner != expired.allocation.owner
                  || replacement.allocation.provider != expired.allocation.provider
                  || replacement.allocation.generation != expired.allocation.generation + 1
               then Stale else Replaced(replacement);
  }

  /** The same workspace and provider, the next generation. */
  predicate Succeeds(b: Binding, expired: Binding) {
    && b.allocation.owner == expired.allocation.owner
    && b.allocation.provider == expired.allocation.provider
    && b.allocation.generation == expired.allocation.generation + 1
  }

  lemma DestroyIsCareful(asked: seq<Asked>, to: nat, d: nat, h: Handle, seen: seq<Seen>,
                         expired: Binding, expected: Option<Handle>)
    requires InTurn(asked, 0, to) && to <= |seen|
    requires DestroysAt(asked, d, h, seen, expired, expected)
    ensures Careful(asked, seen, expired, expected)
  {
  }

  lemma EnsureIsCareful(asked: seq<Asked>, d: nat, h: Handle, after: nat, seen: seq<Seen>, expired: Binding,
                        expected: Option<Handle>)
    requires InTurn(asked, 0, after) && after <= |seen| && AllBefore(asked, after)
    requires DestroysAt(asked, d, h, seen, expired, expected) && 0 < after
    requires Confirms(seen[after - 1].disk, expired.allocation, h)
    ensures Careful(asked + [Asked(AskEnsure, after)], seen, expired, expected)
  {
    AskLast(asked, Asked(AskEnsure, after), |seen|);
    assert asked[d].after < after && Confirmed(asked, after, seen, expired, expected);
  }

  /** The machine is asked to be destroyed. */
  lemma DestroyBegins(before: seq<Asked>, at: nat, h: Handle, seen: seq<Seen>, expired: Binding,
                      expected: Option<Handle>)
    requires Answered(before, 0, at) && Rechecked(seen, at, expired.allocation, h) && Meant(h, expired, expected)
    ensures var asked := before + [Asked(AskDestroy(h), at)];
            InTurn(asked, 0, at) && DestroysAt(asked, |before|, h, seen, expired, expected)
  {
    AskLast(before, Asked(AskDestroy(h), at), at);
    hide Rechecked, Meant;
  }

  /** Nothing else is asked for but harmless things. */
  lemma DestroyGoesOn(asked: seq<Asked>, more: seq<Asked>, from: nat, to: nat, d: nat, h: Handle, seen: seq<Seen>,
                      expired: Binding, expected: Option<Handle>)
    requires 0 < from <= to && InTurn(asked, 0, from - 1) && DestroysAt(asked, d, h, seen, expired, expected)
    requires Quiet(more, from, to)
    ensures InTurn(asked + more, 0, to) && DestroysAt(asked + more, d, h, seen, expired, expected)
    ensures Answered(more, from, to) ==> AllBefore(asked + more, to)
  {
    hide Rechecked, Meant, Harmless;
    forall k | 0 <= k < |asked + more| && k != d ensures Harmless((asked + more)[k]) {
      if k >= |asked| { assert (asked + more)[k] == more[k - |asked|]; }
    }
  }

  lemma AskLast(asked: seq<Asked>, last: Asked, to: nat)
    requires InTurn(asked, 0, last.after) && last.after <= to && AllBefore(asked, last.after)
    ensures InTurn(asked + [last], 0, to) && (asked + [last])[..|asked + [last]| - 1] == asked
  {
  }

  /** Whatever else happens, a careful manager's request for a new machine comes after the stored
      confirmation that the old one is destroyed, and that after the request to destroy it. */
  lemma ConfirmedBeforeEnsure(asked: seq<Asked>, seen: seq<Seen>, expired: Binding, expected: Option<Handle>, l: nat)
    returns (d: nat, i: nat, h: Handle)
    requires Careful(asked, seen, expired, expected) && l < |asked| && asked[l].ask == AskEnsure
    ensures d < l && asked[d].ask == AskDestroy(h) && Meant(h, expired, expected)
    ensures Rechecked(seen, asked[d].after, expired.allocation, h)
    ensures asked[d].after <= i < asked[l].after <= |seen| && Confirms(seen[i].disk, expired.allocation, h)
    ensures forall k :: 0 <= k < |asked| && k != d && k != l ==> Harmless(asked[k])
  {
    assert !Harmless(asked[l]);
    var n := |asked| - 1;
    assert Confirmed(asked[..n], asked[n].after, seen, expired, expected);
    d, h :| DestroysAt(asked[..n], d, h, seen, expired, expected)
            && asked[..n][d].after < asked[n].after <= |seen|
            && Confirms(seen[asked[n].after - 1].disk, expired.allocation, h);
    assert forall k :: 0 <= k < n ==> asked[..n][k].ask != AskEnsure;
    i := asked[n].after - 1;
    forall k | 0 <= k < |asked| && k != d && k != l ensures Harmless(asked[k]) {
      assert k < n;
      assert Harmless(asked[..n][k]);
    }
  }
}
