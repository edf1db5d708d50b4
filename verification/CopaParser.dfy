/** The terminal parser itself: fields and buffers updated byte by byte, a fast path through
    Ground that looks for the next escape and shows all valid text before it at once. */
module CopaParser {
  import opened Common
  import opened CopaParams
  import opened CopaUtf8
  import opened CopaMachine
  import opened CopaForget
  import opened CopaChunks

  // ---- the fast path, on values ----

  /** The place of the first escape, as the byte search has it. */
  function FirstEsc(s: seq<Byte>): (n: nat)
    ensures n <= |s| && (n < |s| ==> s[n] == ESC) && ESC !in s[..n]
  {
    if s == [] || s[0] == ESC then 0
    else
      assert s[..1 + FirstEsc(s[1..])] == [s[0]] + s[1..][..FirstEsc(s[1..])];
      1 + FirstEsc(s[1..])
  }

  /** What is shown for the valid part of a text. */
  function ShowAll(text: seq<Byte>): seq<Action>
    decreases |text|
  {
    if text == [] then []
    else match Decode(text) case Char(ch, len) => [Show(ch)] + ShowAll(text[len..]) case _ => []
  }

  lemma DecodePrefix(s: seq<Byte>, k: nat)
    requires s != [] && Decode(s).Char? && Decode(s).len <= k <= |s|
    ensures Decode(s[..k]) == Decode(s)
  {
  }

  /** The valid part of a text is a valid text and shows the same; behind it no character starts. */
  lemma {:induction false} ValidPart(text: seq<Byte>)
    ensures ValidUpTo(text[..ValidUpTo(text)]) == ValidUpTo(text) && ShowAll(text[..ValidUpTo(text)]) == ShowAll(text)
    ensures ValidUpTo(text) < |text| ==> !Decode(text[ValidUpTo(text)..]).Char?
    decreases |text|
  {
    hide Decode;
    if text == [] {
    } else if Decode(text).Char? {
      var len, n := Decode(text).len, ValidUpTo(text);
      ValidPart(text[len..]);
      DecodePrefix(text, n);
      assert text[..n][len..] == text[len..][..n - len];
      assert text[n..] == text[len..][n - len..];
    } else {
      assert text[0..] == text && text[..0] == [];
    }
  }

  lemma ShowsUnit(c: Core, text: seq<Byte>, rest: seq<Byte>)
    requires c.state == Ground && c.pending == [] && text != [] && text[0] != ESC && Decode(text).Char?
    ensures Run(c, text + rest) == Then([Show(Decode(text).c)], Run(c, text[Decode(text).len..] + rest))
  {
    hide Step, Show;
    DecodeStable(text, rest);
    hide Decode;
    assert (text + rest)[Decode(text).len..] == text[Decode(text).len..] + rest;
    assert (text + rest)[0] == text[0];
  }

  /** Showing the valid part at once is what Ground does unit by unit. */
  lemma {:induction false} ShowsAtOnce(c: Core, text: seq<Byte>, rest: seq<Byte>)
    requires c.state == Ground && c.pending == [] && ESC !in text
    ensures Run(c, text + rest) == Then(ShowAll(text), Run(c, text[ValidUpTo(text)..] + rest))
    decreases |text|
  {
    hide Decode, Run, Show;
    var n := ValidUpTo(text);
    if text == [] || !Decode(text).Char? {
      assert text[n..] + rest == text + rest;
    } else {
      var len, ch := Decode(text).len, Decode(text).c;
      assert text[len..][n - len..] == text[n..];
      ShowsUnit(c, text, rest);
      ShowsAtOnce(c, text[len..], rest);
      ThenThen([Show(ch)], ShowAll(text[len..]), Run(c, text[n..] + rest));
    }
  }

  /** An escape behind an unfinished character breaks it. */
  lemma CutByEscape(t: seq<Byte>, rest: seq<Byte>)
    requires t != [] && Decode(t).Incomplete? && rest != [] && rest[0] == ESC
    ensures Decode(t + rest) == Invalid(|t|) && Broken(t[0], |t|) == Print(REPLACEMENT)
  {
    assert forall i :: 0 <= i < |t| ==> (t + rest)[i] == t[i];
    assert (t + rest)[|t|] == ESC;
  }

  /** What is left to do for a parser that may have come to the end inside a character. */
  function Continue(c: Core, s: seq<Byte>): Out
    requires c.pending != [] ==> s == []
  {
    if c.pending != [] then Out(c, []) else Run(c, s)
  }

  function Opened(c: Core): Core { Goto(Reset(c), Escape) }

  /** The four ways `advance_ground` goes on behind the valid part. */
  lemma GroundRest(c: Core, bytes: seq<Byte>, plain: nat)
    requires c.state == Ground && c.pending == [] && plain == FirstEsc(bytes)
    ensures Run(c, bytes) == Then(ShowAll(bytes[..plain]), Run(c, bytes[ValidUpTo(bytes[..plain])..]))
  {
    var text := bytes[..plain];
    assert bytes == text + bytes[plain..];
    ShowsAtOnce(c, text, bytes[plain..]);
    assert text[ValidUpTo(text)..] + bytes[plain..] == bytes[ValidUpTo(text)..];
  }

  lemma EscapeNext(c: Core, bytes: seq<Byte>, at: nat)
    requires c.state == Ground && c.pending == [] && at < |bytes| && bytes[at] == ESC
    ensures Run(c, bytes[at..]) == Run(Opened(c), bytes[at + 1..])
  {
    assert bytes[at..][1..] == bytes[at + 1..];
  }

  lemma BrokenNext(c: Core, bytes: seq<Byte>, plain: nat, at: nat)
    requires c.state == Ground && c.pending == [] && at < plain <= |bytes| && ESC !in bytes[..plain]
    requires Decode(bytes[at..plain]).Invalid?
    ensures var len := Decode(bytes[at..plain]).len;
            at + len <= plain && Run(c, bytes[at..]) == Then([Broken(bytes[at], len)], Run(c, bytes[at + len..]))
  {
    var t, len := bytes[at..plain], Decode(bytes[at..plain]).len;
    assert bytes[at..] == t + bytes[plain..] && bytes[..plain][at] == bytes[at];
    DecodeStable(t, bytes[plain..]);
    assert bytes[at..][len..] == bytes[at + len..];
  }

  lemma CutNext(c: Core, bytes: seq<Byte>, plain: nat, at: nat)
    requires c.state == Ground && c.pending == [] && at < plain < |bytes| && bytes[plain] == ESC
    requires ESC !in bytes[..plain]
    requires Decode(bytes[at..plain]).Incomplete?
    ensures Run(c, bytes[at..]) == Then([Print(REPLACEMENT)], Run(Opened(c), bytes[plain + 1..]))
  {
    var t := bytes[at..plain];
    assert bytes[at..] == t + bytes[plain..] && bytes[..plain][at] == bytes[at];
    CutByEscape(t, bytes[plain..]);
    assert bytes[at..][|t|..] == bytes[plain..];
    EscapeNext(c, bytes, plain);
  }

  lemma ShowNext(text: seq<Byte>, i: nat)
    requires i < |text| && ValidUpTo(text[i..]) == |text| - i
    ensures Decode(text[i..]).Char? && i + Decode(text[i..]).len <= |text|
    ensures ValidUpTo(text[i + Decode(text[i..]).len..]) == |text| - (i + Decode(text[i..]).len)
    ensures ShowAll(text[i..]) == [Show(Decode(text[i..]).c)] + ShowAll(text[i + Decode(text[i..]).len..])
  {
    hide Decode, Show;
    var s := text[i..];
    assert s[Decode(s).len..] == text[i + Decode(s).len..];
  }

  lemma ShowNothing(s: seq<Byte>)
    requires s == []
    ensures ShowAll(s) == []
  {
  }

  lemma PendingKeepsOk(c: Core, d: Core)
    requires CoreOk(c) && d == c.(pending := d.pending)
    ensures CoreOk(d)
  {
  }

  lemma StepKeepsOk(c: Core, b: Byte)
    requires c.state != Ground && CoreOk(c)
    ensures BufferOk(c) && CoreOk(Step(c, b).core)
  {
    StepKeepsOpening(c, b);
    StepKeepsSizes(c, b);
    StepKeepsBuffer(c, b);
  }

  lemma GroundKeepsOk(c: Core)
    requires c.state == Ground && CoreOk(c)
    ensures CoreOk(Opened(c)) && forall p: seq<Byte> {:trigger c.(pending := p)} :: CoreOk(c.(pending := p))
  {
    forall p: seq<Byte> ensures CoreOk(c.(pending := p)) { PendingKeepsOk(c, c.(pending := p)); }
  }

  lemma EndInside(c: Core, bytes: seq<Byte>, at: nat)
    requires c.state == Ground && c.pending == [] && at < |bytes| && ESC !in bytes[..|bytes|]
    requires Decode(bytes[at..]).Incomplete?
    ensures Run(c, bytes[at..]) == Out(c.(pending := bytes[at..]), []) && |bytes[at..]| <= 3
  {
    assert bytes[at..][0] == bytes[..|bytes|][at];
  }

  lemma StepNext(c: Core, bytes: seq<Byte>, at: nat)
    requires c.state != Ground && c.pending == [] && at < |bytes|
    ensures Continue(c, bytes[at..])
              == Then(Step(c, bytes[at]).actions, Continue(Step(c, bytes[at]).core, bytes[at + 1..]))
  {
    assert bytes[at..][1..] == bytes[at + 1..];
  }

  /** Where `advance` starts: behind what completes a pending character. */
  lemma AdvanceStarts(c: Core, bytes: seq<Byte>)
    requires PendingOk(c)
    ensures c.pending == [] ==> CopaMachine.Advance(c, bytes) == Then([], Continue(c, bytes[0..]))
    ensures c.pending != [] ==>
              var r := Resume(c, bytes);
              && 0 <= r.consumed <= |bytes| && PendingOk(r.core) && (r.core.pending != [] ==> r.consumed == |bytes|)
              && r.core == c.(pending := r.core.pending) && c.state == Ground
              && CopaMachine.Advance(c, bytes) == Then(r.actions, Continue(r.core, bytes[r.consumed..]))
  {
    assert bytes[0..] == bytes;
    if c.pending != [] {
      hide Decode, Run;
      ResumeConsumes(c, bytes);
    } else {
      assert [] + Run(c, bytes).actions == Run(c, bytes).actions;
    }
  }

  lemma AdvanceEnds(o: Out, actions: seq<Action>, c: Core, rest: seq<Byte>)
    requires rest == [] && o == Then(actions, Continue(c, rest))
    ensures o == Out(c, actions)
  {
  }

  class Parser {
    var state: State
    const intermediates: array<Byte>
    var intermediateIdx: nat
    const params: Params
    var param: Value
    var oscRaw: seq<Byte>
    const oscParams: array<(nat, nat)>
    var oscNumParams: nat
    var ignoring: bool
    const partialUtf8: array<Byte>
    var partialUtf8Len: nat

    ghost function Repr(): set<object> {
      {this, intermediates, params, params.subparams, params.params, oscParams, partialUtf8}
    }

    ghost predicate Valid()
      reads Repr()
    {
      && intermediates.Length == MAX_INTERMEDIATES && intermediateIdx <= MAX_INTERMEDIATES
      && oscParams.Length == MAX_OSC_PARAMS && oscNumParams <= MAX_OSC_PARAMS
      && partialUtf8.Length == 4 && partialUtf8Len <= 4
      && params.Valid()
      && (intermediates as object) != partialUtf8
      && (intermediates as object) !in {params.subparams as object, params.params, oscParams}
      && (partialUtf8 as object) !in {params.subparams as object, params.params, oscParams}
      && (oscParams as object) !in {params.subparams as object, params.params}
    }

    /** What the fields stand for. */
    ghost function Core(): Core
      requires Valid()
      reads Repr()
    {
      CopaMachine.Core(state, intermediates[..intermediateIdx], ignoring, params.groups, param, oscRaw,
                       oscParams[..oscNumParams], partialUtf8[..partialUtf8Len])
    }

    constructor ()
      ensures Valid() && fresh(Repr()) && Core() == Init()
    {
      state, intermediateIdx, param, oscRaw, oscNumParams, ignoring, partialUtf8Len := Ground, 0, 0, [], 0, false, 0;
      intermediates := new Byte[MAX_INTERMEDIATES](_ => 0);
      params := new Params();
      oscParams := new (nat, nat)[MAX_OSC_PARAMS](_ => (0, 0));
      partialUtf8 := new Byte[4](_ => 0);
    }

    // ---- actions ----

    method ResetParams()
      requires Valid()
      modifies Repr()
      ensures Valid() && Core() == Reset(old(Core()))
    {
      intermediateIdx, ignoring, param := 0, false, 0;
      params.Clear();
    }

    method ActionCollect(b: Byte)
      requires Valid()
      modifies Repr()
      ensures Valid() && Core() == Collect(old(Core()), b)
    {
      if intermediateIdx == MAX_INTERMEDIATES {
        ignoring := true;
      } else {
        intermediates[intermediateIdx] := b;
        intermediateIdx := intermediateIdx + 1;
      }
    }

    method ActionSubparam()
      requires Valid()
      modifies Repr()
      ensures Valid() && Core() == EndSubparam(old(Core()))
    {
      if params.IsFull() {
        ignoring := true;
      } else {
        params.Extend(param);
        param := 0;
      }
    }

    method ActionParam()
      requires Valid()
      modifies Repr()
      ensures Valid() && Core() == EndParam(old(Core()))
    {
      if params.IsFull() {
        ignoring := true;
      } else {
        params.Push(param);
        param := 0;
      }
    }

    method ActionParamnext(b: Byte)
      requires Valid() && 0x30 <= b <= 0x39
      modifies Repr()
      ensures Valid() && Core() == Digit(old(Core()), b)
    {
      if params.IsFull() {
        ignoring := true;
      } else {
        param := Saturate(param * 10);
        param := Saturate(param + (b - 0x30));
      }
    }

    method ActionOscPutParam()
      requires Valid()
      modifies Repr()
      ensures Valid() && Core() == EndField(old(Core()))
    {
      var idx, paramIdx := |oscRaw|, oscNumParams;
      if paramIdx == 0 {
        oscParams[paramIdx] := (0, idx);
      } else if paramIdx == MAX_OSC_PARAMS {
        return;
      } else {
        var begin := oscParams[paramIdx - 1].1;
        oscParams[paramIdx] := (begin, idx);
      }
      oscNumParams := oscNumParams + 1;
    }

    method ActionOscPut(b: Byte)
      requires Valid()
      modifies Repr()
      ensures Valid() && Core() == old(Core()).(oscRaw := old(oscRaw) + [b])
    {
      oscRaw := oscRaw + [b];
    }

    method ClearOscRaw()
      requires Valid()
      modifies Repr()
      ensures Valid() && Core() == ClearOsc(old(Core()))
    {
      oscRaw := [];
      oscNumParams := 0;
    }

    /** The recorded fields are slices of the buffer. */
    method OscFields() returns (slices: seq<seq<Byte>>)
      requires Valid() && BoundsOk(oscRaw, oscParams[..oscNumParams])
      ensures slices == Fields(oscRaw, oscParams[..oscNumParams])
    {
      slices := [];
      for i := 0 to oscNumParams
        invariant slices == Fields(oscRaw, oscParams[..i])
      {
        var indices := oscParams[i];
        slices := slices + [oscRaw[indices.0..indices.1]];
        FieldsAppend(oscRaw, oscParams[..i], indices);
        assert oscParams[..i] + [indices] == oscParams[..i + 1];
        assert oscParams[..oscNumParams][i] == indices;
      }
    }

    method OscFinish(b: Byte) returns (actions: seq<Action>)
      requires Valid() && BoundsOk(oscRaw, oscParams[..oscNumParams])
      modifies Repr()
      ensures Valid() && Out(Core(), actions) == OscEnd(old(Core()), b)
    {
      FieldKeepsBounds(Core());
      ActionOscPutParam();
      var slices := OscFields();
      actions := [OscDispatch(slices, b == 0x07)];
      ClearOscRaw();
    }

    method EndCurrent()
      requires Valid()
      modifies Repr()
      ensures Valid() && Core() == EndParams(old(Core()))
    {
      if params.IsFull() {
        ignoring := true;
      } else {
        params.Push(param);
      }
    }

    method ActionCsiDispatch(b: Byte) returns (actions: seq<Action>)
      requires Valid() && (state == CsiEntry || state == CsiParam || state == CsiIntermediate) && 0x40 <= b <= 0x7E
      modifies Repr()
      ensures Valid() && Out(Core(), actions) == CsiStep(old(Core()), b)
    {
      EndCurrent();
      var all := CopaParams.Iterate(params);
      actions := [CsiDispatch(all, intermediates[..intermediateIdx], ignoring, b)];
      state := Ground;
    }

    method ActionHook(b: Byte) returns (actions: seq<Action>)
      requires Valid() && (state == DcsEntry || state == DcsParam || state == DcsIntermediate) && 0x40 <= b <= 0x7E
      modifies Repr()
      ensures Valid() && Out(Core(), actions) == DcsStep(old(Core()), b)
    {
      EndCurrent();
      var all := CopaParams.Iterate(params);
      actions := [Hook(all, intermediates[..intermediateIdx], ignoring, b)];
      state := DcsPassthrough;
    }

    method AdvanceAnywhere(b: Byte) returns (actions: seq<Action>)
      requires Valid()
      modifies Repr()
      ensures Valid() && Out(Core(), actions) == Anywhere(old(Core()), b)
    {
      actions := [];
      if b == 0x18 || b == 0x1A {
        actions := [Execute(b)];
        state := Ground;
      } else if b == ESC {
        ResetParams();
        state := Escape;
      }
    }

    // ---- one byte in each state ----

    method AdvanceCsiEntry(b: Byte) returns (actions: seq<Action>)
      requires Valid() && state == CsiEntry
      modifies Repr()
      ensures Valid() && Out(Core(), actions) == CsiStep(old(Core()), b)
    {
      actions := [];
      if b <= 0x17 || b == 0x19 || 0x1C <= b <= 0x1F {
        actions := [Execute(b)];
      } else if 0x20 <= b <= 0x2F {
        ActionCollect(b);
        state := CsiIntermediate;
      } else if 0x30 <= b <= 0x39 {
        ActionParamnext(b);
        state := CsiParam;
      } else if b == 0x3A {
        ActionSubparam();
        state := CsiParam;
      } else if b == 0x3B {
        ActionParam();
        state := CsiParam;
      } else if 0x3C <= b <= 0x3F {
        ActionCollect(b);
        state := CsiParam;
      } else if 0x40 <= b <= 0x7E {
        actions := ActionCsiDispatch(b);
      } else {
        actions := AdvanceAnywhere(b);
      }
    }

    method AdvanceCsiIgnore(b: Byte) returns (actions: seq<Action>)
      requires Valid() && state == CsiIgnore
      modifies Repr()
      ensures Valid() && Out(Core(), actions) == CsiStep(old(Core()), b)
    {
      actions := [];
      if b <= 0x17 || b == 0x19 || 0x1C <= b <= 0x1F {
        actions := [Execute(b)];
      } else if 0x20 <= b <= 0x3F || b == 0x7F {
      } else if 0x40 <= b <= 0x7E {
        state := Ground;
      } else {
        actions := AdvanceAnywhere(b);
      }
    }

    method AdvanceCsiIntermediate(b: Byte) returns (actions: seq<Action>)
      requires Valid() && state == CsiIntermediate
      modifies Repr()
      ensures Valid() && Out(Core(), actions) == CsiStep(old(Core()), b)
    {
      actions := [];
      if b <= 0x17 || b == 0x19 || 0x1C <= b <= 0x1F {
        actions := [Execute(b)];
      } else if 0x20 <= b <= 0x2F {
        ActionCollect(b);
      } else if 0x30 <= b <= 0x3F {
        state := CsiIgnore;
      } else if 0x40 <= b <= 0x7E {
        actions := ActionCsiDispatch(b);
      } else {
        actions := AdvanceAnywhere(b);
      }
    }

    method AdvanceCsiParam(b: Byte) returns (actions: seq<Action>)
      requires Valid() && state == CsiParam
      modifies Repr()
      ensures Valid() && Out(Core(), actions) == CsiStep(old(Core()), b)
    {
      actions := [];
      if b <= 0x17 || b == 0x19 || 0x1C <= b <= 0x1F {
        actions := [Execute(b)];
      } else if 0x20 <= b <= 0x2F {
        ActionCollect(b);
        state := CsiIntermediate;
      } else if 0x30 <= b <= 0x39 {
        ActionParamnext(b);
      } else if b == 0x3A {
        ActionSubparam();
      } else if b == 0x3B {
        ActionParam();
      } else if 0x3C <= b <= 0x3F {
        state := CsiIgnore;
      } else if 0x40 <= b <= 0x7E {
        actions := ActionCsiDispatch(b);
      } else if b == 0x7F {
      } else {
        actions := AdvanceAnywhere(b);
      }
    }

    method AdvanceDcsEntry(b: Byte) returns (actions: seq<Action>)
      requires Valid() && state == DcsEntry
      modifies Repr()
      ensures Valid() && Out(Core(), actions) == DcsStep(old(Core()), b)
    {
      actions := [];
      if b <= 0x17 || b == 0x19 || 0x1C <= b <= 0x1F {
      } else if 0x20 <= b <= 0x2F {
        ActionCollect(b);
        state := DcsIntermediate;
      } else if 0x30 <= b <= 0x39 {
        ActionParamnext(b);
        state := DcsParam;
      } else if b == 0x3A {
        ActionSubparam();
        state := DcsParam;
      } else if b == 0x3B {
        ActionParam();
        state := DcsParam;
      } else if 0x3C <= b <= 0x3F {
        ActionCollect(b);
        state := DcsParam;
      } else if 0x40 <= b <= 0x7E {
        actions := ActionHook(b);
      } else if b == 0x7F {
      } else {
        actions := AdvanceAnywhere(b);
      }
    }

    method AdvanceDcsIntermediate(b: Byte) returns (actions: seq<Action>)
      requires Valid() && state == DcsIntermediate
      modifies Repr()
      ensures Valid() && Out(Core(), actions) == DcsStep(old(Core()), b)
    {
      actions := [];
      if b <= 0x17 || b == 0x19 || 0x1C <= b <= 0x1F {
      } else if 0x20 <= b <= 0x2F {
        ActionCollect(b);
      } else if 0x30 <= b <= 0x3F {
        state := DcsIgnore;
      } else if 0x40 <= b <= 0x7E {
        actions := ActionHook(b);
      } else if b == 0x7F {
      } else {
        actions := AdvanceAnywhere(b);
      }
    }

    method AdvanceDcsParam(b: Byte) returns (actions: seq<Action>)
      requires Valid() && state == DcsParam
      modifies Repr()
      ensures Valid() && Out(Core(), actions) == DcsStep(old(Core()), b)
    {
      actions := [];
      if b <= 0x17 || b == 0x19 || 0x1C <= b <= 0x1F {
      } else if 0x20 <= b <= 0x2F {
        ActionCollect(b);
        state := DcsIntermediate;
      } else if 0x30 <= b <= 0x39 {
        ActionParamnext(b);
      } else if b == 0x3A {
        ActionSubparam();
      } else if b == 0x3B {
        ActionParam();
      } else if 0x3C <= b <= 0x3F {
        state := DcsIgnore;
      } else if 0x40 <= b <= 0x7E {
        actions := ActionHook(b);
      } else if b == 0x7F {
      } else {
        actions := AdvanceAnywhere(b);
      }
    }

    method AdvanceDcsPassthrough(b: Byte) returns (actions: seq<Action>)
      requires Valid() && state == DcsPassthrough
      modifies Repr()
      ensures Valid() && Out(Core(), actions) == PassthroughStep(old(Core()), b)
    {
      actions := [];
      if b <= 0x17 || b == 0x19 || 0x1C <= b <= 0x7E {
        actions := [Put(b)];
      } else if b == 0x18 || b == 0x1A {
        actions := [Unhook, Execute(b)];
        state := Ground;
      } else if b == ESC {
        actions := [Unhook];
        ResetParams();
        state := Escape;
      } else if b == 0x9C {
        actions := [Unhook];
        state := Ground;
      }
    }

    method DispatchEsc(b: Byte) returns (actions: seq<Action>)
      requires Valid()
      modifies Repr()
      ensures Valid() && Out(Core(), actions) == EscEnd(old(Core()), b)
    {
      actions := [EscDispatch(intermediates[..intermediateIdx], ignoring, b)];
      state := Ground;
    }

    method AdvanceEsc(b: Byte) returns (actions: seq<Action>)
      requires Valid() && state == Escape
      modifies Repr()
      ensures Valid() && Out(Core(), actions) == EscapeStep(old(Core()), b)
    {
      actions := [];
      if b <= 0x17 || b == 0x19 || 0x1C <= b <= 0x1F {
        actions := [Execute(b)];
      } else if 0x20 <= b <= 0x2F {
        ActionCollect(b);
        state := EscapeIntermediate;
      } else if 0x30 <= b <= 0x4F || 0x51 <= b <= 0x57 || 0x59 <= b <= 0x5A || b == 0x5C || 0x60 <= b <= 0x7E {
        actions := DispatchEsc(b);
      } else if b == 0x50 {
        ResetParams();
        state := DcsEntry;
      } else if b == 0x58 {
        actions := [SosStart];
        state := SosString;
      } else if b == 0x5B {
        ResetParams();
        state := CsiEntry;
      } else if b == 0x5D {
        ClearOscRaw();
        state := OscString;
      } else if b == 0x5E {
        actions := [PmStart];
        state := PmString;
      } else if b == 0x5F {
        actions := [ApcStart];
        state := ApcString;
      } else if b == 0x18 || b == 0x1A {
        actions := [Execute(b)];
        state := Ground;
      }
    }

    method AdvanceEscIntermediate(b: Byte) returns (actions: seq<Action>)
      requires Valid() && state == EscapeIntermediate
      modifies Repr()
      ensures Valid() && Out(Core(), actions) == EscapeIntermediateStep(old(Core()), b)
    {
      actions := [];
      if b <= 0x17 || b == 0x19 || 0x1C <= b <= 0x1F {
        actions := [Execute(b)];
      } else if 0x20 <= b <= 0x2F {
        ActionCollect(b);
      } else if 0x30 <= b <= 0x7E {
        actions := DispatchEsc(b);
      } else if b == 0x7F {
      } else {
        actions := AdvanceAnywhere(b);
      }
    }

    method AdvanceOscString(b: Byte) returns (actions: seq<Action>)
      requires Valid() && state == OscString && BoundsOk(oscRaw, oscParams[..oscNumParams])
      modifies Repr()
      ensures Valid() && Out(Core(), actions) == OscStep(old(Core()), b)
    {
      actions := [];
      if b <= 0x06 || 0x08 <= b <= 0x17 || b == 0x19 || 0x1C <= b <= 0x1F {
      } else if b == 0x07 {
        actions := OscFinish(b);
        state := Ground;
      } else if b == 0x18 || b == 0x1A {
        actions := OscFinish(b);
        actions := actions + [Execute(b)];
        state := Ground;
      } else if b == ESC {
        actions := OscFinish(b);
        ResetParams();
        state := Escape;
      } else if b == 0x3B {
        ActionOscPutParam();
      } else {
        ActionOscPut(b);
      }
    }

    method AdvanceApcString(b: Byte) returns (actions: seq<Action>)
      requires Valid() && state == ApcString
      modifies Repr()
      ensures Valid() && Out(Core(), actions) == ApcStep(old(Core()), b)
    {
      actions := [];
      if b <= 0x06 || 0x08 <= b <= 0x17 || b == 0x19 || 0x1C <= b <= 0x1F {
      } else if b == 0x07 {
        actions := [ApcEnd];
        ClearOscRaw();
        state := Ground;
      } else if b == 0x18 || b == 0x1A {
        actions := [ApcPut(b), ApcEnd, Execute(b)];
        ActionOscPut(b);
        ClearOscRaw();
        state := Ground;
      } else if b == ESC {
        actions := [ApcEnd];
        ClearOscRaw();
        state := Escape;
      } else if b == 0x3B {
        actions := [ApcPut(b)];
        ActionOscPut(b);
        ActionOscPutParam();
      } else {
        actions := [ApcPut(b)];
        ActionOscPut(b);
      }
    }

    method AdvanceOpaqueString(b: Byte, put: Action, end: Action) returns (actions: seq<Action>)
      requires Valid() && (state == SosString || state == PmString)
      modifies Repr()
      ensures Valid() && Out(Core(), actions) == OpaqueStep(old(Core()), b, put, end)
    {
      actions := [];
      if b == 0x07 {
        actions := [end];
        state := Ground;
      } else if b == 0x18 || b == 0x1A {
        actions := [end, Execute(b)];
        state := Ground;
      } else if b == ESC {
        actions := [end];
        state := Escape;
      } else if 0x20 <= b {
        actions := [put];
      }
    }

    method ChangeState(b: Byte) returns (actions: seq<Action>)
      requires Valid() && state != Ground && CoreOk(Core())
      modifies Repr()
      ensures Valid() && Out(Core(), actions) == Step(old(Core()), b)
    {
      hide CsiStep, DcsStep, PassthroughStep, EscapeStep, EscapeIntermediateStep, OscStep, ApcStep, OpaqueStep;
      match state
      case CsiEntry => actions := AdvanceCsiEntry(b);
      case CsiIgnore => actions := AdvanceCsiIgnore(b);
      case CsiIntermediate => actions := AdvanceCsiIntermediate(b);
      case CsiParam => actions := AdvanceCsiParam(b);
      case DcsEntry => actions := AdvanceDcsEntry(b);
      case DcsIgnore =>
        IgnoredDcs(Core(), b);
        actions := AdvanceAnywhere(b);
      case DcsIntermediate => actions := AdvanceDcsIntermediate(b);
      case DcsParam => actions := AdvanceDcsParam(b);
      case DcsPassthrough => actions := AdvanceDcsPassthrough(b);
      case Escape => actions := AdvanceEsc(b);
      case EscapeIntermediate => actions := AdvanceEscIntermediate(b);
      case OscString => actions := AdvanceOscString(b);
      case SosString => actions := AdvanceOpaqueString(b, SosPut(b), SosEnd);
      case ApcString => actions := AdvanceApcString(b);
      case PmString => actions := AdvanceOpaqueString(b, PmPut(b), PmEnd);
    }

    // ---- Ground ----

    method GroundDispatch(text: seq<Byte>) returns (actions: seq<Action>)
      requires ValidUpTo(text) == |text|
      ensures actions == ShowAll(text)
    {
      hide Decode, ValidUpTo, ShowAll;
      actions := [];
      var i := 0;
      assert text[0..] == text;
      while i < |text|
        invariant i <= |text| && ValidUpTo(text[i..]) == |text| - i
        invariant ShowAll(text) == actions + ShowAll(text[i..])
      {
        ShowNext(text, i);
        var unit := Decode(text[i..]);
        if unit.c <= 0x1F || 0x80 <= unit.c <= 0x9F {
          actions := actions + [Execute(unit.c)];
        } else {
          actions := actions + [Print(unit.c)];
        }
        i := i + unit.len;
      }
      ShowNothing(text[i..]);
    }

    method EnterEscape()
      requires Valid()
      modifies Repr()
      ensures Valid() && Core() == Opened(old(Core()))
    {
      state := Escape;
      ResetParams();
    }

    method KeepPartial(bytes: seq<Byte>)
      requires Valid() && partialUtf8Len + |bytes| <= 4
      modifies Repr()
      ensures Valid() && Core() == old(Core()).(pending := old(Core()).pending + bytes)
    {
      forall k | 0 <= k < |bytes| {
        partialUtf8[partialUtf8Len + k] := bytes[k];
      }
      partialUtf8Len := partialUtf8Len + |bytes|;
    }

    /** Goes on behind the valid part of a text: over a broken sequence, or an unfinished one cut by an
        escape, or keeping it for later. */
    method BehindValid(bytes: seq<Byte>, plainChars: nat, valid: nat) returns (actions: seq<Action>, consumed: nat)
      requires Valid() && state == Ground && partialUtf8Len == 0
      requires plainChars == FirstEsc(bytes) && valid < plainChars && !Decode(bytes[valid..plainChars]).Char?
      modifies Repr()
      ensures Valid() && 0 < consumed <= |bytes|
      ensures Core().pending != [] ==> consumed == |bytes|
      ensures Run(old(Core()), bytes[valid..]) == Then(actions, Continue(Core(), bytes[consumed..]))
      ensures PendingOk(Core())
      ensures Core() == Opened(old(Core())) || Core() == old(Core()).(pending := Core().pending)
    {
      hide Decode, Run, FirstEsc;
      ghost var c := Core();
      match Decode(bytes[valid..plainChars])
      case Invalid(len) =>
        BrokenNext(c, bytes, plainChars, valid);
        actions := [if len == 1 && bytes[valid] <= 0x9F then Execute(bytes[valid]) else Print(REPLACEMENT)];
        consumed := valid + len;
      case Incomplete =>
        if plainChars < |bytes| {
          CutNext(c, bytes, plainChars, valid);
          actions := [Print(REPLACEMENT)];
          EnterEscape();
          consumed := plainChars + 1;
        } else {
          assert bytes[valid..plainChars] == bytes[valid..];
          EndInside(c, bytes, valid);
          KeepPartial(bytes[valid..]);
          assert [] + bytes[valid..] == bytes[valid..];
          actions, consumed := [], |bytes|;
        }
    }

    /** Consumes the text before the next escape, or up to a broken sequence, or everything. */
    method AdvanceGround(bytes: seq<Byte>) returns (actions: seq<Action>, consumed: nat)
      requires Valid() && state == Ground && partialUtf8Len == 0 && bytes != []
      modifies Repr()
      ensures Valid() && 0 < consumed <= |bytes|
      ensures Core().pending != [] ==> consumed == |bytes|
      ensures Run(old(Core()), bytes) == Then(actions, Continue(Core(), bytes[consumed..]))
      ensures PendingOk(Core())
      ensures Core() == Opened(old(Core())) || Core() == old(Core()).(pending := Core().pending)
    {
      hide Decode, Run, ShowAll, ValidUpTo, FirstEsc;
      ghost var c := Core();
      var plainChars := FirstEsc(bytes);
      if plainChars == 0 {
        EscapeNext(c, bytes, 0);
        assert bytes[0..] == bytes;
        EnterEscape();
        return [], 1;
      }
      GroundRest(c, bytes, plainChars);
      var text := bytes[..plainChars];
      var valid := ValidUpTo(text);
      ValidPart(text);
      if valid == plainChars {
        assert text[..valid] == text;
        actions := GroundDispatch(text);
        consumed := plainChars;
        if consumed < |bytes| {
          EscapeNext(c, bytes, consumed);
          EnterEscape();
          consumed := consumed + 1;
        }
      } else {
        actions := GroundDispatch(text[..valid]);
        assert text[valid..] == bytes[valid..plainChars];
        var more;
        more, consumed := BehindValid(bytes, plainChars, valid);
        ThenThen(actions, more, Continue(Core(), bytes[consumed..]));
        actions := actions + more;
      }
    }

    /** Completes a pending character; no difference below is ever negative. */
    method AdvancePartialUtf8(bytes: seq<Byte>) returns (actions: seq<Action>, consumed: nat)
      requires Valid() && partialUtf8Len != 0 && PendingOk(Core())
      modifies Repr()
      ensures Valid() && Resumed(Core(), actions, consumed) == Resume(old(Core()), bytes)
    {
      ghost var c := Core();
      ResumeConsumes(c, bytes);
      BufferDecides(c, bytes);
      var oldBytes := partialUtf8Len;
      var toCopy := Min(|bytes|, 4 - oldBytes);
      KeepPartial(bytes[..toCopy]);
      var buffer := partialUtf8[..partialUtf8Len];
      assert buffer == Buffer(c, bytes);
      var valid := ValidUpTo(buffer);
      if valid == partialUtf8Len {
        var unit := Decode(buffer);
        partialUtf8Len := 0;
        return [Print(unit.c)], unit.len - oldBytes;
      }
      if valid > 0 {
        partialUtf8Len := 0;
        return [Print(Decode(buffer[..valid]).c)], valid - oldBytes;
      }
      match Decode(buffer)
      case Invalid(len) =>
        partialUtf8Len := 0;
        actions, consumed := [Print(REPLACEMENT)], len - oldBytes;
      case Incomplete =>
        actions, consumed := [], toCopy;
    }

    /** One turn of the loop: all that Ground consumes at once, or one byte. */
    method AdvanceOnce(bytes: seq<Byte>, i: nat) returns (actions: seq<Action>, consumed: nat)
      requires Valid() && partialUtf8Len == 0 && CoreOk(Core()) && i < |bytes|
      modifies Repr()
      ensures Valid() && PendingOk(Core()) && CoreOk(Core()) && 0 < consumed <= |bytes| - i
      ensures Core().pending != [] ==> i + consumed == |bytes|
      ensures Continue(old(Core()), bytes[i..]) == Then(actions, Continue(Core(), bytes[i + consumed..]))
    {
      hide Run, Step, CoreOk;
      ghost var c := Core();
      if state == Ground {
        GroundKeepsOk(c);
        actions, consumed := AdvanceGround(bytes[i..]);
        assert bytes[i..][consumed..] == bytes[i + consumed..];
      } else {
        StepKeepsOk(c, bytes[i]);
        StepNext(c, bytes, i);
        actions := ChangeState(bytes[i]);
        consumed := 1;
      }
    }

    /** Reads a chunk of input. */
    method Advance(bytes: seq<Byte>) returns (actions: seq<Action>)
      requires Valid() && PendingOk(Core()) && CoreOk(Core())
      modifies Repr()
      ensures Valid() && PendingOk(Core()) && CoreOk(Core())
      ensures Out(Core(), actions) == CopaMachine.Advance(old(Core()), bytes)
    {
      hide Run, Resume, Step, CopaMachine.Advance, CoreOk, Continue;
      ghost var c := Core();
      AdvanceStarts(c, bytes);
      var i := 0;
      actions := [];
      if partialUtf8Len != 0 {
        PendingKeepsOk(c, Resume(c, bytes).core);
        actions, i := AdvancePartialUtf8(bytes);
      }
      while i != |bytes|
        invariant Valid() && PendingOk(Core()) && CoreOk(Core())
        invariant i <= |bytes| && (Core().pending != [] ==> i == |bytes|)
        invariant CopaMachine.Advance(c, bytes) == Then(actions, Continue(Core(), bytes[i..]))
        decreases |bytes| - i
      {
        var more, consumed := AdvanceOnce(bytes, i);
        ThenThen(actions, more, Continue(Core(), bytes[i + consumed..]));
        actions := actions + more;
        i := i + consumed;
      }
      AdvanceEnds(CopaMachine.Advance(c, bytes), actions, Core(), bytes[i..]);
    }

    /** Like `Advance`, but stops once the performer, which has seen `actions`, asks for it. Reading
        what is left afterwards is as if nothing had stopped. */
    method AdvanceUntilTerminated(bytes: seq<Byte>, terminated: seq<Action> -> bool)
      returns (actions: seq<Action>, consumed: nat)
      requires Valid() && PendingOk(Core()) && CoreOk(Core())
      modifies Repr()
      ensures Valid() && PendingOk(Core()) && CoreOk(Core())
      ensures consumed <= |bytes| && (consumed < |bytes| ==> terminated(actions))
      ensures Then(actions, CopaMachine.Advance(Core(), bytes[consumed..])) == CopaMachine.Advance(old(Core()), bytes)
    {
      hide Run, Resume, Step, CopaMachine.Advance, CoreOk, Continue;
      ghost var c := Core();
      AdvanceStarts(c, bytes);
      consumed := 0;
      actions := [];
      if partialUtf8Len != 0 {
        PendingKeepsOk(c, Resume(c, bytes).core);
        actions, consumed := AdvancePartialUtf8(bytes);
      }
      while consumed != |bytes| && !terminated(actions)
        invariant Valid() && PendingOk(Core()) && CoreOk(Core())
        invariant consumed <= |bytes| && (Core().pending != [] ==> consumed == |bytes|)
        invariant CopaMachine.Advance(c, bytes) == Then(actions, Continue(Core(), bytes[consumed..]))
        decreases |bytes| - consumed
      {
        var more, read := AdvanceOnce(bytes, consumed);
        ThenThen(actions, more, Continue(Core(), bytes[consumed + read..]));
        actions := actions + more;
        consumed := consumed + read;
      }
      ContinueIsAdvance(Core(), bytes[consumed..]);
    }
  }

  /** A parser that may have come to the end inside a character reads on as `advance` does. */
  lemma ContinueIsAdvance(c: Core, s: seq<Byte>)
    requires PendingOk(c) && (c.pending != [] ==> s == [])
    ensures Continue(c, s) == CopaMachine.Advance(c, s)
  {
    if c.pending != [] { assert Buffer(c, s) == c.pending; }
  }

  lemma IgnoredDcs(c: Core, b: Byte)
    requires c.state == DcsIgnore
    ensures DcsStep(c, b) == Anywhere(c, b)
  {
  }
}
