/** Escape sequences, opaque strings and plain text from end to end, and what controls and malformed
    bytes do inside a sequence. */
module CopaEscapes {
  import opened Common
  import opened CopaParams
  import opened CopaUtf8
  import opened CopaMachine
  import opened CopaForget
  import opened CopaChunks
  import opened CopaSequences

  // ---- escape sequences ----

  lemma EscapeStepRead(c: Core, b: Byte)
    requires (c.state == Escape || c.state == EscapeIntermediate) && 0x20 <= b <= 0x2F
    ensures Step(c, b) == Out(Goto(Collect(c, b), EscapeIntermediate), []) && Collect(c, b).pending == c.pending
  {
  }

  lemma {:induction false} EscapeRead(c: Core, inter: seq<Byte>)
    requires c.state == Escape && c.pending == [] && Cleared(c) && IsIntermediates(inter)
    ensures Run(c, inter) ==
            Out(c.(intermediates := Kept2(inter), ignoring := |inter| > MAX_INTERMEDIATES,
                   state := if inter == [] then Escape else EscapeIntermediate), [])
    decreases |inter|
  {
    if inter != [] {
      hide Run, Step, Collect, Kept2;
      var n := |inter| - 1;
      var d := Run(c, inter[..n]).core;
      EscapeRead(c, inter[..n]);
      Sequel(c, inter[..n], [inter[n]]);
      SingleByte(d, inter[n]);
      EscapeStepRead(d, inter[n]);
      CollectNext(d, inter[..n], inter[n]);
      assert inter[..n] + [inter[n]] == inter;
    }
  }

  /** The final bytes that open a string or a control sequence instead. */
  predicate Opens(b: Byte) { b == 0x50 || b == 0x58 || b == 0x5B || b == 0x5D || b == 0x5E || b == 0x5F }

  lemma EscapeRoused(c: Core)
    requires c.state == Ground && c.pending == []
    ensures Run(c, [ESC]) == Out(Goto(Reset(c), Escape), []) && Cleared(Reset(c)) && Reset(c).pending == []
  {
    assert [ESC][1..] == [];
  }

  /** Every escape sequence is read from Ground as one dispatch of its first two intermediates and
      its final byte, back in Ground; the flag tells whether there were more. */
  lemma EscReads(c: Core, inter: seq<Byte>, final: Byte)
    requires c.state == Ground && c.pending == [] && IsIntermediates(inter)
    requires 0x30 <= final <= 0x7E && (inter == [] ==> !Opens(final))
    ensures var o := Run(c, [ESC] + inter + [final]);
            && o.actions == [EscDispatch(Kept2(inter), |inter| > MAX_INTERMEDIATES, final)]
            && o.core.state == Ground && o.core.pending == []
  {
    hide Run, Kept2, Reset;
    var e := Goto(Reset(c), Escape);
    EscapeRoused(c);
    EscapeRead(e, inter);
    Sequel(c, [ESC], inter);
    Sequel(c, [ESC] + inter, [final]);
    SingleByte(Run(e, inter).core, final);
  }

  /** Up to two intermediates are dispatched as they are. */
  lemma EscRoundTrip(c: Core, inter: seq<Byte>, final: Byte)
    requires c.state == Ground && c.pending == [] && IsIntermediates(inter) && |inter| <= MAX_INTERMEDIATES
    requires 0x30 <= final <= 0x7E && (inter == [] ==> !Opens(final))
    ensures Run(c, [ESC] + inter + [final]).actions == [EscDispatch(inter, false, final)]
  {
    EscReads(c, inter, final);
    assert Kept2(inter) == inter;
  }

  // ---- application, privacy and start-of-string strings ----

  datatype Opaque = Apc | Pm | Sos
  {
    function Introducer(): Byte { match this case Apc => 0x5F case Pm => 0x5E case Sos => 0x58 }
    function State(): State { match this case Apc => ApcString case Pm => PmString case Sos => SosString }
    function Start(): Action { match this case Apc => ApcStart case Pm => PmStart case Sos => SosStart }
    function Put(b: Byte): Action { match this case Apc => ApcPut(b) case Pm => PmPut(b) case Sos => SosPut(b) }
    function End(): Action { match this case Apc => ApcEnd case Pm => PmEnd case Sos => SosEnd }
  }

  function PutAll(kind: Opaque, s: seq<Byte>): seq<Action> {
    if s == [] then [] else PutAll(kind, s[..|s| - 1]) + [kind.Put(s[|s| - 1])]
  }

  lemma OpaqueByte(kind: Opaque, c: Core, b: Byte)
    requires c.state == kind.State() && c.pending == [] && !Terminates(b)
    ensures Step(c, b).core.state == c.state && Step(c, b).core.pending == []
    ensures Step(c, b).actions == if b < 0x20 then [] else [kind.Put(b)]
  {
  }

  lemma {:induction false} OpaqueRead(kind: Opaque, c: Core, s: seq<Byte>)
    requires c.state == kind.State() && c.pending == [] && IsPayload(s)
    ensures Run(c, s).actions == PutAll(kind, Kept(s))
    ensures Run(c, s).core.state == c.state && Run(c, s).core.pending == []
    decreases |s|
  {
    if s != [] {
      hide Run, Step;
      var n := |s| - 1;
      OpaqueRead(kind, c, s[..n]);
      assert s[..n] + [s[n]] == s;
      Sequel(c, s[..n], [s[n]]);
      SingleByte(Run(c, s[..n]).core, s[n]);
      OpaqueByte(kind, Run(c, s[..n]).core, s[n]);
      PutNext(kind, s);
    }
  }

  lemma PutNext(kind: Opaque, s: seq<Byte>)
    requires s != []
    ensures PutAll(kind, Kept(s)) ==
            PutAll(kind, Kept(s[..|s| - 1])) + (if s[|s| - 1] < 0x20 then [] else [kind.Put(s[|s| - 1])])
  {
    var before := Kept(s[..|s| - 1]);
    if s[|s| - 1] >= 0x20 {
      assert (before + [s[|s| - 1]])[..|before|] == before;
    } else {
      assert before + [] == before && PutAll(kind, before) + [] == PutAll(kind, before);
    }
  }

  /** CAN and SUB end an application string after being delivered to it, the others without. */
  lemma OpaqueEnds(kind: Opaque, c: Core, end: Byte)
    requires c.state == kind.State() && c.pending == [] && Terminates(end)
    ensures Step(c, end).actions == (if Cancels(end) && kind == Apc then [ApcPut(end)] else []) + [kind.End()]
                                    + (if Cancels(end) then [Execute(end)] else [])
    ensures Step(c, end).core.state == if end == ESC then Escape else Ground
  {
  }

  lemma OpaqueOpens(kind: Opaque, c: Core) returns (d: Core)
    requires c.state == Ground && c.pending == []
    ensures Run(c, [ESC, kind.Introducer()]) == Out(d, [kind.Start()]) && d.state == kind.State() && d.pending == []
  {
    var e := Goto(Reset(c), Escape);
    assert [ESC, kind.Introducer()][1..] == [kind.Introducer()];
    SingleByte(e, kind.Introducer());
    d := Goto(e, kind.State());
  }

  /** Every application, privacy or start-of-string string is delivered from its start to its end,
      byte by byte, without its C0 controls. */
  lemma OpaqueReads(kind: Opaque, c: Core, s: seq<Byte>, end: Byte)
    requires c.state == Ground && c.pending == [] && IsPayload(s) && Terminates(end)
    ensures var o := Run(c, [ESC, kind.Introducer()] + s + [end]);
            && o.actions == [kind.Start()] + PutAll(kind, Kept(s))
                            + (if Cancels(end) && kind == Apc then [ApcPut(end)] else []) + [kind.End()]
                            + (if Cancels(end) then [Execute(end)] else [])
            && o.core.state == if end == ESC then Escape else Ground
  {
    hide Run, Step, PutAll, Kept, Opaque.Introducer, Opaque.Start, Opaque.End;
    var d := OpaqueOpens(kind, c);
    OpaqueRead(kind, d, s);
    Sequel(c, [ESC, kind.Introducer()], s);
    Sequel(c, [ESC, kind.Introducer()] + s, [end]);
    SingleByte(Run(d, s).core, end);
    OpaqueEnds(kind, Run(d, s).core, end);
  }

  // ---- controls and malformed bytes inside a control sequence ----

  predicate InCsi(s: State) { s == CsiEntry || s == CsiParam || s == CsiIntermediate || s == CsiIgnore }

  /** Bytes that neither end a control sequence nor abort it. */
  predicate IsInner(s: seq<Byte>) {
    forall i :: 0 <= i < |s| ==> !(0x40 <= s[i] <= 0x7E) && !Cancels(s[i]) && s[i] != ESC
  }

  /** What is left without controls and without bytes from DEL on. */
  function Plainly(s: seq<Byte>): seq<Byte> {
    if s == [] then []
    else Plainly(s[..|s| - 1]) + (if 0x20 <= s[|s| - 1] <= 0x3F then [s[|s| - 1]] else [])
  }

  /** The controls among the bytes, executed. */
  function Executed(s: seq<Byte>): seq<Action> {
    if s == [] then []
    else Executed(s[..|s| - 1]) + (if s[|s| - 1] < 0x20 then [Execute(s[|s| - 1])] else [])
  }

  lemma InnerByte(c: Core, b: Byte)
    requires InCsi(c.state) && c.pending == [] && IsInner([b])
    ensures InCsi(Step(c, b).core.state) && Step(c, b).core.pending == []
    ensures !(0x20 <= b <= 0x3F) ==> Step(c, b).core == c
    ensures Step(c, b).actions == if b < 0x20 then [Execute(b)] else []
  {
    assert [b][0] == b;
  }

  /** Controls inside a control sequence are executed at once, and the sequence is read as if
      neither they nor bytes from DEL on were there. */
  lemma {:induction false} InnerRead(c: Core, s: seq<Byte>)
    requires InCsi(c.state) && c.pending == [] && IsInner(s)
    ensures Run(c, s) == Out(Run(c, Plainly(s)).core, Executed(s))
    ensures InCsi(Run(c, s).core.state) && Run(c, s).core.pending == [] && Run(c, Plainly(s)).actions == []
    decreases |s|
  {
    if s != [] {
      var n := |s| - 1;
      InnerRead(c, s[..n]);
      assert s[..n] + [s[n]] == s && IsInner([s[n]]);
      InnerNext(c, s[..n], s[n], Plainly(s[..n]), Executed(s[..n]));
      assert Plainly(s[..n]) + [] == Plainly(s[..n]);
    }
  }

  lemma InnerNext(c: Core, s: seq<Byte>, b: Byte, plain: seq<Byte>, executed: seq<Action>)
    requires InCsi(c.state) && c.pending == [] && IsInner([b]) && Run(c, plain).actions == []
    requires Run(c, s) == Out(Run(c, plain).core, executed)
    requires InCsi(Run(c, s).core.state) && Run(c, s).core.pending == []
    ensures var plain' := if 0x20 <= b <= 0x3F then plain + [b] else plain;
            && Run(c, s + [b]) == Out(Run(c, plain').core, executed + (if b < 0x20 then [Execute(b)] else []))
            && Run(c, plain').actions == []
    ensures InCsi(Run(c, s + [b]).core.state) && Run(c, s + [b]).core.pending == []
  {
    hide Run, Step;
    var d := Run(c, s).core;
    Sequel(c, s, [b]);
    SingleByte(d, b);
    InnerByte(d, b);
    Sequel(c, plain, [b]);
  }

  lemma Entered(c: Core) returns (e: Core)
    requires c.state == Ground && c.pending == []
    ensures Run(c, [ESC, 0x5B]) == Out(e, []) && e.state == CsiEntry && e.pending == []
  {
    Introduced(CSI, c);
    e := Goto(Reset(c), CsiEntry);
  }

  /** A control sequence with controls and other noise anywhere in between: the controls are
      executed, then comes the dispatch of the sequence without them. */
  lemma NoisyCsiReads(c: Core, noisy: seq<Byte>, marker: seq<Byte>, params: seq<seq<seq<Byte>>>, inter: seq<Byte>,
                      final: Byte)
    requires c.state == Ground && c.pending == [] && IsInner(noisy)
    requires IsMarker(marker) && Fits(params) && IsIntermediates(inter) && 0x40 <= final <= 0x7E
    requires Plainly(noisy) == marker + ParamsText(params) + inter
    ensures var o := Run(c, [ESC, 0x5B] + noisy + [final]);
            && o.actions == Executed(noisy) + [CsiDispatch(GroupsOf(params), Kept2(marker + inter),
                                                           |marker + inter| > MAX_INTERMEDIATES, final)]
            && o.core.state == Ground && o.core.pending == []
  {
    hide Run, Step, GroupsOf, Kept2, Executed, Plainly, ParamsText, IsMarker, IsIntermediates, IsInner;
    var e := Entered(c);
    InnerRead(e, noisy);
    var plain := Plainly(noisy);
    Sequel(c, [ESC, 0x5B], noisy);
    Sequel(c, [ESC, 0x5B] + noisy, [final]);
    Sequel(c, [ESC, 0x5B], plain);
    Sequel(c, [ESC, 0x5B] + plain, [final]);
    assert [ESC, 0x5B] + plain == HeaderText(CSI, marker, params, inter);
    CsiReads(c, marker, params, inter, final);
    hide HeaderText;
  }

  /** CAN or SUB aborts a control sequence anywhere: nothing is dispatched. */
  lemma CancelAborts(c: Core, s: seq<Byte>, cancel: Byte)
    requires c.state == Ground && c.pending == [] && IsInner(s) && Cancels(cancel)
    ensures var o := Run(c, [ESC, 0x5B] + s + [cancel]);
            o.actions == Executed(s) + [Execute(cancel)] && o.core.state == Ground && o.core.pending == []
  {
    hide Run, Executed, Plainly, IsInner;
    var e := Entered(c);
    InnerRead(e, s);
    Sequel(c, [ESC, 0x5B], s);
    Sequel(c, [ESC, 0x5B] + s, [cancel]);
    SingleByte(Run(e, s).core, cancel);
  }

  lemma IgnoreByte(c: Core, b: Byte)
    requires c.state == CsiIgnore && c.pending == [] && IsInner([b])
    ensures Step(c, b) == Out(c, if b < 0x20 then [Execute(b)] else [])
  {
    assert [b][0] == b;
  }

  lemma {:induction false} IgnoreRead(c: Core, s: seq<Byte>)
    requires c.state == CsiIgnore && c.pending == [] && IsInner(s)
    ensures Run(c, s) == Out(c, Executed(s))
    decreases |s|
  {
    if s != [] {
      hide Run, Step;
      var n := |s| - 1;
      IgnoreRead(c, s[..n]);
      assert s[..n] + [s[n]] == s;
      Sequel(c, s[..n], [s[n]]);
      SingleByte(c, s[n]);
      IgnoreByte(c, s[n]);
    }
  }

  lemma MalformedByte(c: Core, bad: Byte)
    requires (c.state == CsiParam && 0x3C <= bad <= 0x3F) || (c.state == CsiIntermediate && 0x30 <= bad <= 0x3F)
    ensures Step(c, bad) == Out(Goto(c, CsiIgnore), [])
  {
  }

  /** A marker behind a parameter, or anything but an intermediate behind one, makes the control
      sequence malformed: it is read to its final byte and not dispatched. */
  lemma MalformedCsiReads(c: Core, marker: seq<Byte>, params: seq<seq<seq<Byte>>>, inter: seq<Byte>, bad: Byte,
                          rest: seq<Byte>, final: Byte)
    requires c.state == Ground && c.pending == []
    requires IsMarker(marker) && Fits(params) && IsIntermediates(inter) && IsInner(rest) && 0x40 <= final <= 0x7E
    requires if inter == [] then 0x3C <= bad <= 0x3F && marker + ParamsText(params) != [] else 0x30 <= bad <= 0x3F
    ensures var o := Run(c, HeaderText(CSI, marker, params, inter) + [bad] + rest + [final]);
            o.actions == Executed(rest) && o.core.state == Ground && o.core.pending == []
  {
    hide Run, GroupsOf, Kept2, Executed, ParamsText, IsMarker, IsInner, Reached;
    var text := HeaderText(CSI, marker, params, inter);
    var d := HeaderRead(CSI, c, marker, params, inter);
    hide HeaderText;
    Sequel(c, text, [bad]);
    SingleByte(d, bad);
    MalformedByte(d, bad);
    Sequel(c, text + [bad], rest);
    IgnoreRead(Goto(d, CsiIgnore), rest);
    Sequel(c, text + [bad] + rest, [final]);
    SingleByte(Goto(d, CsiIgnore), final);
  }

  /** Bytes that leave a malformed device control string malformed. */
  predicate IsSkipped(s: seq<Byte>) { forall i :: 0 <= i < |s| ==> !Cancels(s[i]) && s[i] != ESC }

  lemma {:induction false} SkippedRead(c: Core, s: seq<Byte>)
    requires c.state == DcsIgnore && c.pending == [] && IsSkipped(s)
    ensures Run(c, s) == Out(c, [])
    decreases |s|
  {
    if s != [] { SkippedRead(c, s[1..]); }
  }

  lemma MalformedDcsByte(c: Core, bad: Byte)
    requires (c.state == DcsParam && 0x3C <= bad <= 0x3F) || (c.state == DcsIntermediate && 0x30 <= bad <= 0x3F)
    ensures Step(c, bad) == Out(Goto(c, DcsIgnore), [])
  {
  }

  /** Likewise a malformed device control string is skipped, data and all, up to where it is
      cancelled or an escape begins. */
  lemma MalformedDcsReads(c: Core, marker: seq<Byte>, params: seq<seq<seq<Byte>>>, inter: seq<Byte>, bad: Byte,
                          rest: seq<Byte>, end: Byte)
    requires c.state == Ground && c.pending == []
    requires IsMarker(marker) && Fits(params) && IsIntermediates(inter) && IsSkipped(rest)
    requires if inter == [] then 0x3C <= bad <= 0x3F && marker + ParamsText(params) != [] else 0x30 <= bad <= 0x3F
    requires end == ESC || Cancels(end)
    ensures var o := Run(c, HeaderText(DCS, marker, params, inter) + [bad] + rest + [end]);
            && o.actions == (if Cancels(end) then [Execute(end)] else [])
            && o.core.state == if end == ESC then Escape else Ground
  {
    hide Run, GroupsOf, Kept2, ParamsText, IsMarker, IsSkipped, Reached;
    var text := HeaderText(DCS, marker, params, inter);
    var d := HeaderRead(DCS, c, marker, params, inter);
    hide HeaderText;
    Sequel(c, text, [bad]);
    SingleByte(d, bad);
    MalformedDcsByte(d, bad);
    Sequel(c, text + [bad], rest);
    SkippedRead(Goto(d, DcsIgnore), rest);
    Sequel(c, text + [bad] + rest, [end]);
    SingleByte(Goto(d, DcsIgnore), end);
  }

  // ---- more values than there is room for ----

  predicate IsParamBytes(s: seq<Byte>) { forall i :: 0 <= i < |s| ==> 0x30 <= s[i] <= 0x3B }

  lemma FullByte(c: Core, b: Byte)
    requires c.state == CsiParam && c.groups.Full() && 0x30 <= b <= 0x3B
    ensures Step(c, b) == Out(c.(ignoring := true), [])
  {
    HeaderStep(CSI, c, b);
    hide Step, Groups.Full;
  }

  lemma {:induction false} FullRead(c: Core, s: seq<Byte>)
    requires c.state == CsiParam && c.pending == [] && c.groups.Full() && IsParamBytes(s)
    ensures Run(c, s) == Out(c.(ignoring := c.ignoring || s != []), [])
    decreases |s|
  {
    if s != [] {
      FullByte(c, s[0]);
      hide Step, Groups.Full;
      FullRead(c.(ignoring := true), s[1..]);
    }
  }

  /** Once 32 values have been read and ended, whatever parameter bytes follow are left out, and the
      dispatch of the 32 has its flag set. */
  lemma ExcessIsFlagged(c: Core, params: seq<seq<seq<Byte>>>, rest: seq<Byte>, final: Byte)
    requires c.state == Ground && c.pending == [] && IsParams(params) && TotalOf(GroupsOf(params)) == MAX_PARAMS
    requires IsParamBytes(rest) && 0x40 <= final <= 0x7E
    ensures var o := Run(c, [ESC, 0x5B] + ParamsText(params) + [0x3B] + rest + [final]);
            o.actions == [CsiDispatch(GroupsOf(params), [], true, final)] && o.core.state == Ground
  {
    hide Run, Step, GroupsOf, ParamsText, IsParamBytes, Readable, Reached, TotalOf;
    var text := [ESC, 0x5B] + ParamsText(params);
    var d := HeaderRead(CSI, c, [], params, []);
    assert HeaderText(CSI, [], params, []) == text;
    assert Kept2([]) == [];
    GroupsReadable(params);
    ReachedEnds(d, GroupsOf(params));
    SeparatorRead(CSI, c, text, 0x3B, [], d);
    var full := FullAfter(d, GroupsOf(params));
    assert text + [0x3B] + [] == text + [0x3B];
    EmptyRun(full);
    Sequel(c, text + [0x3B], rest);
    FullRead(full, rest);
    Sequel(c, text + [0x3B] + rest, [final]);
    SingleByte(Run(full, rest).core, final);
    FullFinal(Run(full, rest).core, final);
  }

  lemma EmptyRun(c: Core)
    requires c.pending == []
    ensures Run(c, []) == Out(c, [])
  {
  }

  lemma FullAfter(d: Core, groups: seq<seq<Value>>) returns (full: Core)
    requires Readable(groups) && TotalOf(groups) == MAX_PARAMS && d == Reached(d, groups)
    ensures full == Goto(EndParam(d), CsiParam) && full.groups == Groups(groups, []) && full.groups.Full()
    ensures full.intermediates == d.intermediates && full.pending == d.pending
  {
    ReachedEnds(d, groups);
    TotalOfInit(groups);
    full := Goto(EndParam(d), CsiParam);
  }

  lemma FullFinal(c: Core, final: Byte)
    requires c.state == CsiParam && c.groups.Full() && 0x40 <= final <= 0x7E
    ensures Step(c, final) == Out(Goto(c.(ignoring := true), Ground),
                                  [CsiDispatch(c.groups.All(), c.intermediates, true, final)])
  {
  }

  // ---- text ----

  predicate IsText(text: seq<nat>) { forall i :: 0 <= i < |text| ==> Scalar(text[i]) && text[i] != ESC }

  function Encoded(text: seq<nat>): seq<Byte>
    requires IsText(text)
  {
    if text == [] then [] else Encode(text[0]) + Encoded(text[1..])
  }

  /** Text is printed character by character, its C0 and C1 controls are executed. */
  lemma {:induction false} TextReads(c: Core, text: seq<nat>)
    requires c.state == Ground && c.pending == [] && IsText(text)
    ensures Run(c, Encoded(text)).core == c && |Run(c, Encoded(text)).actions| == |text|
    ensures forall i :: 0 <= i < |text| ==>
              Run(c, Encoded(text)).actions[i] ==
              if text[i] < 0x20 || 0x80 <= text[i] < 0xA0 then Execute(text[i]) else Print(text[i])
    decreases |text|
  {
    if text == [] {
      EmptyRun(c);
    } else {
      hide Run, Encode;
      TextNext(c, text[0], Encoded(text[1..]));
      TextReads(c, text[1..]);
    }
  }

  lemma TextNext(c: Core, ch: nat, rest: seq<Byte>)
    requires c.state == Ground && c.pending == [] && Scalar(ch) && ch != ESC
    ensures Run(c, Encode(ch) + rest) == Then([Show(ch)], Run(c, rest))
  {
    var first := Encode(ch);
    EncodedDecodes(ch, rest);
    FirstByte(ch);
    hide Encode, Decode;
    assert (first + rest)[|first|..] == rest && (first + rest)[0] == first[0];
  }

  lemma FirstByte(ch: nat)
    requires Scalar(ch) && ch != ESC
    ensures Encode(ch)[0] != ESC
  {
  }
}
