/** Chunk independence: exactly when cutting the input in two changes nothing. */
module CopaChunks {
  import opened Common
  import opened CopaParams
  import opened CopaUtf8
  import opened CopaMachine
  import opened CopaForget

  // ---- cutting an input ----

  function Fresh(c: Core): Core { c.(pending := []) }

  lemma ThenThen(a: seq<Action>, b: seq<Action>, o: Out)
    ensures Then(a, Then(b, o)) == Then(a + b, o)
  {
    assert a + (b + o.actions) == (a + b) + o.actions;
  }

  /** Reading `a + b` is reading `a` and then `b` behind what `a` left pending. */
  lemma {:induction false} RunSplit(c: Core, a: seq<Byte>, b: seq<Byte>)
    requires c.pending == []
    ensures Run(c, a + b) == Then(Run(c, a).actions, Run(Fresh(Run(c, a).core), Run(c, a).core.pending + b))
    decreases |a|
  {
    if a == [] {
      assert a + b == b == [] + b;
    } else if c.state != Ground {
      var o := Step(c, a[0]);
      assert (a + b)[1..] == a[1..] + b;
      RunSplit(o.core, a[1..], b);
      ThenThen(o.actions, Run(o.core, a[1..]).actions, Run(Fresh(Run(c, a).core), Run(c, a).core.pending + b));
    } else if a[0] == ESC {
      assert (a + b)[1..] == a[1..] + b;
      RunSplit(Goto(Reset(c), Escape), a[1..], b);
    } else if Decode(a).Incomplete? {
    } else {
      DecodeStable(a, b);
      var len := Decode(a).len;
      var shown := if Decode(a).Char? then Show(Decode(a).c) else Broken(a[0], len);
      assert (a + b)[len..] == a[len..] + b;
      RunSplit(c, a[len..], b);
      ThenThen([shown], Run(c, a[len..]).actions, Run(Fresh(Run(c, a).core), Run(c, a).core.pending + b));
    }
  }

  // ---- resuming a character ----

  /** A lone lead byte of a two-byte character was pending, and either the character is a C1
      control, or what was copied with it ends in an ASCII byte and a byte that is no character. */
  predicate Loses(pending: seq<Byte>, s: seq<Byte>) {
    && |pending| == 1 && 0xC2 <= pending[0] <= 0xDF
    && s != [] && Continuation(s[0])
    && ((pending[0] == 0xC2 && s[0] <= 0x9F) || (|s| >= 3 && s[1] < 0x80 && s[2] >= 0x80))
  }

  /** Behind the first character at most two bytes were copied. */
  lemma ValidBehind(r: seq<Byte>)
    requires |r| <= 2
    ensures ValidUpTo(r) == |r| || ValidUpTo(r) == 0 || (|r| == 2 && r[0] < 0x80 && r[1] >= 0x80 && ValidUpTo(r) == 1)
    ensures |r| == 2 && r[0] < 0x80 && r[1] >= 0x80 ==> ValidUpTo(r) == 1
  {
    if |r| == 2 { assert ValidUpTo(r[1..]) == if r[1] < 0x80 then 1 else 0; }
  }

  /** The buffer decides as the whole rest does. */
  lemma BufferDecides(c: Core, s: seq<Byte>)
    requires c.pending != [] && PendingOk(c)
    ensures Buffer(c, s) != [] && Buffer(c, s)[0] == c.pending[0] >= 0xC2
    ensures Decode(Buffer(c, s)).Incomplete? ==> Buffer(c, s) == c.pending + s
    ensures !Decode(Buffer(c, s)).Incomplete? ==>
              Decode(c.pending + s) == Decode(Buffer(c, s))
                && |c.pending| <= Decode(Buffer(c, s)).len <= |c.pending + s|
  {
    var k := Min(|s|, 4 - |c.pending|);
    var buffer := Buffer(c, s);
    assert forall i :: 0 <= i < |c.pending| ==> buffer[i] == c.pending[i];
    assert buffer + s[k..] == c.pending + s;
    if Decode(buffer).Incomplete? {
      assert k == |s|;
    } else {
      DecodeStable(buffer, s[k..]);
    }
  }

  /** `Resume` consumes the first character alone unless a byte is lost. */
  lemma ResumedLength(c: Core, s: seq<Byte>)
    requires c.pending != [] && PendingOk(c) && Decode(Buffer(c, s)).Char?
    requires !(Loses(c.pending, s) && |s| >= 3 && s[1] < 0x80 && s[2] >= 0x80)
    ensures Resume(c, s).consumed == Decode(Buffer(c, s)).len - |c.pending|
  {
    var buffer, len := Buffer(c, s), Decode(Buffer(c, s)).len;
    BufferDecides(c, s);
    assert forall i :: 0 <= i < |c.pending| ==> buffer[i] == c.pending[i];
    ValidBehind(buffer[len..]);
  }

  lemma ResumeIsRun(c: Core, s: seq<Byte>)
    requires c.pending != [] && PendingOk(c) && !Loses(c.pending, s)
    ensures Advance(c, s) == Run(Fresh(c), c.pending + s)
  {
    var all, buffer := c.pending + s, Buffer(c, s);
    BufferDecides(c, s);
    assert all[0] == c.pending[0] && all != [];
    if !Decode(buffer).Incomplete? {
      var len := Decode(buffer).len;
      assert all[len..] == s[len - |c.pending|..];
      if Decode(buffer).Char? {
        ResumedLength(c, s);
        ShownAsPrint(c, s);
      }
    }
  }

  /** A character that needs several bytes is shown by `Run` as `Resume` prints it, but for C1. */
  lemma ShownAsPrint(c: Core, s: seq<Byte>)
    requires c.pending != [] && PendingOk(c) && Decode(Buffer(c, s)).Char?
    ensures Show(Decode(Buffer(c, s)).c) == Print(Decode(Buffer(c, s)).c) <==>
            !(|c.pending| == 1 && c.pending[0] == 0xC2 && s != [] && s[0] <= 0x9F)
    ensures |c.pending| == 1 && c.pending[0] <= 0xDF ==> s != [] && Continuation(s[0]) && Decode(Buffer(c, s)).len == 2
  {
    var buffer := Buffer(c, s);
    assert forall i :: 0 <= i < |c.pending| ==> buffer[i] == c.pending[i];
    assert forall i :: |c.pending| <= i < |buffer| ==> buffer[i] == s[i - |c.pending|];
  }

  // ---- a lost byte always shows ----

  predicate Plain(a: Action) { a.Print? || a.Execute? }

  predicate AllPlain(actions: seq<Action>) { forall i :: 0 <= i < |actions| ==> Plain(actions[i]) }

  /** States that do nothing, or execute, until they act in a way that Ground never does. */
  predicate Quiet(c: Core) {
    && c.pending == [] && (c.state == Escape ==> Cleared(c))
    && (c.state.Escape? || c.state.EscapeIntermediate? || c.state.OscString?
        || c.state.CsiEntry? || c.state.CsiParam? || c.state.CsiIntermediate? || c.state.CsiIgnore?
        || c.state.DcsEntry? || c.state.DcsParam? || c.state.DcsIntermediate? || c.state.DcsIgnore?)
  }

  lemma QuietHigh(e: Core, b: Byte)
    requires Quiet(e) && b >= 0x80
    ensures Step(e, b).actions == [] && Quiet(Step(e, b).core)
  {
    hide Groups.All, Groups.Total;
  }

  lemma QuietEsc(e: Core)
    requires Quiet(e)
    ensures (Step(e, ESC).actions == [] && Step(e, ESC).core.state == Escape && Cleared(Step(e, ESC).core))
            || (Step(e, ESC).actions != [] && !Plain(Step(e, ESC).actions[0]))
  {
    hide Groups.All, Groups.Total;
  }

  lemma QuietAscii(e: Core, b: Byte)
    requires Quiet(e) && b < 0x80 && b != ESC
    ensures var o := Step(e, b);
            || (o.actions != [] && !Plain(o.actions[0]))
            || ((o.actions == [] || o.actions == [Execute(b)]) && (Quiet(o.core) || o.core.state == Ground))
  {
    hide Groups.All, Groups.Total;
  }

  lemma {:induction false} QuietSkips(e: Core, s: seq<Byte>, n: nat) returns (e': Core)
    requires Quiet(e) && n <= |s| && forall i :: 0 <= i < n ==> s[i] >= 0x80
    ensures Quiet(e') && Run(e, s).actions == Run(e', s[n..]).actions && Run(e, s).core == Run(e', s[n..]).core
    decreases n
  {
    if n == 0 {
      e' := e;
      assert s[0..] == s;
    } else {
      QuietHigh(e, s[0]);
      e' := QuietSkips(Step(e, s[0]).core, s[1..], n - 1);
      assert s[1..][n - 1..] == s[n..];
    }
  }

  /** What Ground does with the unit that `s` starts with. */
  lemma GroundUnit(g: Core, s: seq<Byte>) returns (len: nat, shown: Action)
    requires g.state == Ground && g.pending == [] && s != [] && s[0] != ESC && !Decode(s).Incomplete?
    ensures 0 < len <= |s| && Plain(shown) && Run(g, s) == Then([shown], Run(g, s[len..]))
    ensures s[0] < 0x80 ==> len == 1
    ensures s[0] >= 0x80 ==> forall i :: 0 <= i < len ==> s[i] >= 0x80
  {
    len := Decode(s).len;
    shown := if Decode(s).Char? then Show(Decode(s).c) else Broken(s[0], len);
    forall i | 0 < i < len ensures s[i] >= 0x80 { InnerBytes(s, i); }
  }

  /** A parser in Ground that is ahead by at least one print or execute is never caught up with by
      one that was left in a quiet state. */
  lemma {:induction false} StaysAhead(ahead: seq<Action>, g: Core, e: Core, s: seq<Byte>)
    requires ahead != [] && AllPlain(ahead) && g.state == Ground && g.pending == [] && Quiet(e)
    ensures ahead + Run(g, s).actions != Run(e, s).actions
    decreases |s|
  {
    if s == [] {
    } else if s[0] == ESC {
      QuietEsc(e);
      var o := Step(e, ESC);
      if o.actions == [] {
        RunAlike(Goto(Reset(g), Escape), o.core, s[1..]);
        assert |ahead + Run(g, s).actions| > |Run(e, s).actions|;
      } else {
        assert Run(e, s).actions[0] == o.actions[0];
        assert (ahead + Run(g, s).actions)[0] == ahead[0];
      }
    } else if Decode(s).Incomplete? {
      forall i | 0 < i < |s| ensures s[i] >= 0x80 { InnerBytes(s, i); }
      var e' := QuietSkips(e, s, |s|);
      assert |ahead + Run(g, s).actions| > |Run(e, s).actions|;
    } else {
      var len, shown := GroundUnit(g, s);
      var more := ahead + [shown];
      assert ahead + Run(g, s).actions == more + Run(g, s[len..]).actions;
      if s[0] >= 0x80 {
        var e' := QuietSkips(e, s, len);
        StaysAhead(more, g, e', s[len..]);
      } else {
        AheadOfByte(ahead, shown, g, e, s);
      }
    }
  }

  lemma {:induction false} AheadOfByte(ahead: seq<Action>, shown: Action, g: Core, e: Core, s: seq<Byte>)
    requires ahead != [] && AllPlain(ahead) && Plain(shown) && g.state == Ground && g.pending == [] && Quiet(e)
    requires s != [] && s[0] < 0x80 && s[0] != ESC
    ensures (ahead + [shown]) + Run(g, s[1..]).actions != Run(e, s).actions
    decreases |s|, 0
  {
    var o, more, rest := Step(e, s[0]), ahead + [shown], s[1..];
    QuietAscii(e, s[0]);
    if o.actions != [] && !Plain(o.actions[0]) {
      assert Run(e, s).actions[0] == o.actions[0];
      assert (more + Run(g, rest).actions)[0] == ahead[0];
    } else if o.core.state == Ground {
      RunAlike(g, o.core, rest);
      assert |more + Run(g, rest).actions| > |Run(e, s).actions|;
    } else if o.actions == [] {
      StaysAhead(more, g, o.core, rest);
      assert Run(e, s).actions == Run(o.core, rest).actions;
    } else {
      StaysAhead(more[1..], g, o.core, rest);
      assert (more + Run(g, rest).actions)[1..] == more[1..] + Run(g, rest).actions;
      assert Run(e, s).actions[1..] == Run(o.core, rest).actions;
    }
  }

  /** The same trace and the same state afterwards. */
  predicate Same(a: Out, b: Out) { a.actions == b.actions && a.core.state == b.core.state }

  /** In Ground, leaving out an ASCII byte in front of a byte above is always noticed. */
  lemma SkippedByteShows(c: Core, s: seq<Byte>)
    requires c.state == Ground && c.pending == [] && |s| >= 2 && s[0] < 0x80 && s[1] >= 0x80
    ensures !Same(Run(c, s[1..]), Run(c, s))
  {
    var rest := s[1..];
    if s[0] != ESC {
      var len, shown := GroundUnit(c, s);
      assert |Run(c, s).actions| == 1 + |Run(c, rest).actions|;
    } else {
      var e := Goto(Reset(c), Escape);
      if Decode(rest).Incomplete? {
        forall i | 0 < i < |rest| ensures rest[i] >= 0x80 { InnerBytes(rest, i); }
        var e' := QuietHighStays(e, rest);
      } else {
        var len, shown := GroundUnit(c, rest);
        var e' := QuietSkips(e, rest, len);
        StaysAhead([shown], c, e', rest[len..]);
      }
    }
  }

  /** A quiet parser is still outside Ground after bytes above ASCII. */
  lemma QuietHighStays(e: Core, s: seq<Byte>) returns (e': Core)
    requires Quiet(e) && forall i :: 0 <= i < |s| ==> s[i] >= 0x80
    ensures Quiet(e') && Run(e, s).core == e'
  {
    e' := QuietSkips(e, s, |s|);
    assert s[|s|..] == [];
  }

  lemma ThenSame(shown: Action, a: Out, b: Out)
    requires !Same(a, b)
    ensures !Same(Then([shown], a), Then([shown], b))
    ensures !Same(Then([shown], b), Then([shown], a))
  {
    assert ([shown] + a.actions)[1..] == a.actions && ([shown] + b.actions)[1..] == b.actions;
  }

  /** The lost byte: the buffer is valid up to the second character's end. */
  lemma LossConsumes(c: Core, s: seq<Byte>)
    requires c.pending != [] && PendingOk(c) && Loses(c.pending, s) && |s| >= 3 && s[1] < 0x80 && s[2] >= 0x80
    requires Decode(Buffer(c, s)).Char? && Decode(Buffer(c, s)).len == 2
    ensures Resume(c, s).consumed == 2
  {
    var buffer := Buffer(c, s);
    assert buffer[2..] == [s[1], s[2]];
    ValidBehind(buffer[2..]);
  }

  lemma LossShows(c: Core, s: seq<Byte>)
    requires c.pending != [] && PendingOk(c) && Loses(c.pending, s)
    ensures !Same(Advance(c, s), Run(Fresh(c), c.pending + s))
  {
    var all, buffer := c.pending + s, Buffer(c, s);
    BufferDecides(c, s);
    assert buffer[1] == s[0] && all[0] == c.pending[0];
    assert Decode(buffer).Char? && Decode(buffer).len == 2;
    ShownAsPrint(c, s);
    hide Decode, SecondOk;
    assert all[2..] == s[1..];
    var ch := Decode(buffer).c;
    assert Advance(c, s).actions[0] == Print(ch);
    if c.pending[0] == 0xC2 && s[0] <= 0x9F {
      assert Run(Fresh(c), all).actions[0] == Show(ch);
    } else {
      LossConsumes(c, s);
      assert Advance(c, s) == Then([Print(ch)], Run(Fresh(c), s[2..]));
      assert Run(Fresh(c), all) == Then([Print(ch)], Run(Fresh(c), s[1..]));
      assert s[1..][1..] == s[2..];
      SkippedByteShows(Fresh(c), s[1..]);
      ThenSame(Print(ch), Run(Fresh(c), s[2..]), Run(Fresh(c), s[1..]));
    }
  }

  // ---- the theorems ----

  /** Reading `a` and then `b` is reading `a + b`, in trace and in every field, exactly when the
      boundary does not lose; when it does, trace or state differ. */
  lemma ChunkIndependence(c: Core, a: seq<Byte>, b: seq<Byte>)
    requires c.pending == []
    ensures PendingOk(Run(c, a).core)
    ensures !Loses(Run(c, a).core.pending, b) ==> Then(Run(c, a).actions, Advance(Run(c, a).core, b)) == Run(c, a + b)
    ensures Loses(Run(c, a).core.pending, b)
            ==> !Same(Then(Run(c, a).actions, Advance(Run(c, a).core, b)), Run(c, a + b))
  {
    RunPendingOk(c, a);
    RunSplit(c, a, b);
    var o := Run(c, a);
    if o.core.pending == [] {
      assert [] + b == b;
    } else if Loses(o.core.pending, b) {
      LossShows(o.core, b);
      var x, y := Advance(o.core, b), Run(Fresh(o.core), o.core.pending + b);
      if o.actions + x.actions == o.actions + y.actions {
        assert x.actions == (o.actions + x.actions)[|o.actions|..] == y.actions;
      }
    } else {
      ResumeIsRun(o.core, b);
    }
  }

  /** One call of `advance` after the other. */
  function AdvanceAll(c: Core, chunks: seq<seq<Byte>>): (out: Out)
    requires PendingOk(c)
    ensures PendingOk(out.core)
    decreases |chunks|
  {
    if chunks == [] then Out(c, [])
    else
      var o := AdvanceAll(c, chunks[..|chunks| - 1]);
      AdvanceKeepsPending(o.core, chunks[|chunks| - 1]);
      Then(o.actions, Advance(o.core, chunks[|chunks| - 1]))
  }

  lemma AdvanceKeepsPending(c: Core, s: seq<Byte>)
    requires PendingOk(c)
    ensures PendingOk(Advance(c, s).core)
  {
    if c.pending == [] {
      RunPendingOk(c, s);
    } else {
      ResumeConsumes(c, s);
      if Resume(c, s).core.pending == [] { RunPendingOk(Resume(c, s).core, s[Resume(c, s).consumed..]); }
    }
  }

  lemma RunNothing(c: Core)
    requires c.pending == []
    ensures Run(c, []) == Out(c, [])
  {
  }

  /** Over every chunking whose boundaries do not lose, the parser does what it does with the
      whole input at once. */
  lemma {:induction false} AnyChunking(c: Core, chunks: seq<seq<Byte>>)
    requires c.pending == []
    requires forall k :: 0 <= k < |chunks| ==> !Loses(Run(c, Concat(chunks[..k])).core.pending, chunks[k])
    ensures AdvanceAll(c, chunks) == Run(c, Concat(chunks))
    decreases |chunks|
  {
    hide Run, Advance, Loses;
    RunNothing(c);
    if chunks != [] {
      var n := |chunks| - 1;
      var before := chunks[..n];
      forall k | 0 <= k < |before| ensures !Loses(Run(c, Concat(before[..k])).core.pending, before[k]) {
        assert before[..k] == chunks[..k];
      }
      AnyChunking(c, before);
      ChunkIndependence(c, Concat(before), chunks[n]);
    }
  }

  /** No boundary of the chunking loses. */
  ghost predicate NoneLoses(c: Core, chunks: seq<seq<Byte>>)
    requires c.pending == []
  {
    forall k :: 0 <= k < |chunks| ==> !Loses(Run(c, Concat(chunks[..k])).core.pending, chunks[k])
  }

  /** After every chunk the parser has done what it does with all the input so far at once. */
  ghost predicate AlwaysSame(c: Core, chunks: seq<seq<Byte>>)
    requires c.pending == []
  {
    forall k :: 0 <= k <= |chunks| ==> Same(AdvanceAll(c, chunks[..k]), Run(c, Concat(chunks[..k])))
  }

  /** Over every chunking: feeding the chunks is, after each of them, the same as reading their
      concatenation exactly when no boundary loses. */
  lemma ChunkingExact(c: Core, chunks: seq<seq<Byte>>)
    requires c.pending == []
    ensures AlwaysSame(c, chunks) <==> NoneLoses(c, chunks)
  {
    hide Run, Advance, AdvanceAll, Loses, Concat;
    if NoneLoses(c, chunks) {
      forall k | 0 <= k <= |chunks| ensures Same(AdvanceAll(c, chunks[..k]), Run(c, Concat(chunks[..k]))) {
        PrefixSame(c, chunks, k);
      }
    } else {
      assert chunks[..|chunks|] == chunks;
      var k := FirstLoss(c, chunks, |chunks|);
      PrefixSame(c, chunks, k);
      LossDiffers(c, chunks, k);
      var n := k + 1;
      assert !Same(AdvanceAll(c, chunks[..n]), Run(c, Concat(chunks[..n])));
    }
  }

  /** The first of the boundaries before `n` that loses. */
  lemma {:induction false} FirstLoss(c: Core, chunks: seq<seq<Byte>>, n: nat) returns (k: nat)
    requires c.pending == [] && n <= |chunks| && !NoneLoses(c, chunks[..n])
    ensures k < n && Loses(Run(c, Concat(chunks[..k])).core.pending, chunks[k]) && NoneLoses(c, chunks[..k])
  {
    hide Run, Advance, AdvanceAll, Loses, Concat;
    if n > 0 {
      var before := chunks[..n - 1];
      if NoneLoses(c, before) {
        k := n - 1;
        assert forall i :: 0 <= i < n ==> chunks[..n][..i] == chunks[..i];
        assert forall i :: 0 <= i < n - 1 ==> before[..i] == chunks[..i];
      } else {
        k := FirstLoss(c, chunks, n - 1);
      }
    }
  }

  lemma PrefixSame(c: Core, chunks: seq<seq<Byte>>, k: nat)
    requires c.pending == [] && k <= |chunks| && (NoneLoses(c, chunks) || NoneLoses(c, chunks[..k]))
    ensures AdvanceAll(c, chunks[..k]) == Run(c, Concat(chunks[..k]))
  {
    hide Run, Advance, AdvanceAll, Loses, Concat;
    forall i | 0 <= i < k ensures !Loses(Run(c, Concat(chunks[..k][..i])).core.pending, chunks[..k][i]) {
      assert chunks[..k][..i] == chunks[..i];
    }
    AnyChunking(c, chunks[..k]);
  }

  lemma LossDiffers(c: Core, chunks: seq<seq<Byte>>, k: nat)
    requires c.pending == [] && k < |chunks| && AdvanceAll(c, chunks[..k]) == Run(c, Concat(chunks[..k]))
    requires Loses(Run(c, Concat(chunks[..k])).core.pending, chunks[k])
    ensures !Same(AdvanceAll(c, chunks[..k + 1]), Run(c, Concat(chunks[..k + 1])))
  {
    hide Run, Advance, Loses;
    assert chunks[..k + 1][..k] == chunks[..k];
    ChunkIndependence(c, Concat(chunks[..k]), chunks[k]);
  }

  /** Cut in the middle, U+0085 is printed instead of executed. */
  lemma SplitControlIsPrinted(c: Core)
    requires c.state == Ground && c.pending == [0xC2]
    ensures Advance(c, [0x85]).actions == [Print(0x85)]
    ensures Run(Fresh(c), [0xC2, 0x85]).actions == [Execute(0x85)]
  {
    assert Buffer(c, [0x85]) == [0xC2, 0x85];
    assert [0xC2, 0x85][2..] == [] && [0x85][1..] == [];
  }

  /** Cut in the middle of U+00E9, the A behind it is lost when another character starts there. */
  lemma SplitLosesLetter(c: Core)
    requires c.state == Ground && c.pending == [0xC3]
    ensures Advance(c, [0xA9, 0x41, 0xC3]).actions == [Print(0xE9)]
    ensures Run(Fresh(c), [0xC3, 0xA9, 0x41, 0xC3]).actions == [Print(0xE9), Print(0x41)]
  {
    var all: seq<Byte> := [0xC3, 0xA9, 0x41, 0xC3];
    assert Buffer(c, all[1..]) == all && all[1..] == [0xA9, 0x41, 0xC3];
    ValidBehind(all[2..]);
    assert ValidUpTo(all) == 3;
    assert all[1..][2..] == [0xC3] == all[3..] && all[2..][1..] == [0xC3];
    assert Run(Fresh(c), all[2..]).actions == [Print(0x41)];
  }
}
