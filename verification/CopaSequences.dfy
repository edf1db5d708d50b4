/** Control sequences and operating system commands from end to end. */
module CopaSequences {
  import opened Common
  import opened CopaParams
  import opened CopaUtf8
  import opened CopaMachine
  import opened CopaForget
  import opened CopaChunks

  /** Two inputs one after the other, with nothing pending in between. */
  lemma Sequel(c: Core, a: seq<Byte>, b: seq<Byte>)
    requires c.pending == [] && Run(c, a).core.pending == []
    ensures Run(c, a + b) == Then(Run(c, a).actions, Run(Run(c, a).core, b))
  {
    RunSplit(c, a, b);
    assert [] + b == b;
  }

  lemma SingleByte(c: Core, b: Byte)
    requires c.pending == [] && c.state != Ground
    ensures Run(c, [b]) == Step(c, b)
  {
    assert [b][1..] == [];
  }

  // ---- numbers ----

  predicate IsDigits(ds: seq<Byte>) { forall i :: 0 <= i < |ds| ==> 0x30 <= ds[i] <= 0x39 }

  function Number(ds: seq<Byte>): nat
    requires IsDigits(ds)
  {
    if ds == [] then 0 else Number(ds[..|ds| - 1]) * 10 + (ds[|ds| - 1] - 0x30)
  }

  function Digits(v: nat): (ds: seq<Byte>)
    ensures ds != [] && IsDigits(ds)
  {
    if v < 10 then [0x30 + v] else Digits(v / 10) + [0x30 + v % 10]
  }

  lemma {:induction false} DigitsNumber(v: nat)
    ensures Number(Digits(v)) == v
  {
    if v < 10 {
      assert Digits(v)[..0] == [];
    } else {
      DigitsNumber(v / 10);
      assert Digits(v)[..|Digits(v)| - 1] == Digits(v / 10);
    }
  }

  predicate IsFamily(f: Family) { f == CSI || f == DCS }

  predicate InParams(f: Family, c: Core) {
    IsFamily(f) && c.pending == [] && (c.state == f.entry || c.state == f.param)
  }

  /** Where a text of a header's parameters leads. */
  function After(f: Family, c: Core, text: seq<Byte>): State { if text == [] then c.state else f.param }

  /** Both families read the bytes of a header alike. */
  lemma HeaderStep(f: Family, c: Core, b: Byte)
    requires IsFamily(f) && (c.state == f.entry || c.state == f.param || c.state == f.intermediate) && 0x20 <= b <= 0x3F
    ensures Step(c, b) == Out(HeaderByte(f, c, b), [])
  {
  }

  lemma SaturateStep(n: nat, d: nat)
    requires d < 10
    ensures Saturate(Saturate(Saturate(n) * 10) + d) == Saturate(n * 10 + d)
  {
  }

  /** Any string of digits, the empty one, too, is read as the least of its value and 65535, as long
      as there is room for a parameter. */
  lemma {:induction false} DigitsSaturate(f: Family, c: Core, ds: seq<Byte>)
    requires InParams(f, c) && c.param == 0 && !c.groups.Full() && IsDigits(ds)
    ensures Run(c, ds) == Out(c.(param := Saturate(Number(ds)), state := After(f, c, ds)), [])
    decreases |ds|
  {
    hide Groups.Full, Groups.All, Step;
    if ds != [] {
      hide Run;
      var n := |ds| - 1;
      assert ds == ds[..n] + [ds[n]];
      DigitsSaturate(f, c, ds[..n]);
      Sequel(c, ds[..n], [ds[n]]);
      SingleByte(Run(c, ds[..n]).core, ds[n]);
      DigitRead(f, Run(c, ds[..n]).core, Number(ds[..n]), ds[n]);
    }
  }

  lemma DigitRead(f: Family, c: Core, n: nat, b: Byte)
    requires InParams(f, c) && c.param == Saturate(n) && !c.groups.Full() && 0x30 <= b <= 0x39
    ensures Step(c, b) == Out(c.(param := Saturate(n * 10 + (b - 0x30)), state := f.param), [])
  {
    hide Groups.Full, Groups.All, Step;
    HeaderStep(f, c, b);
    SaturateStep(n, b - 0x30);
  }

  // ---- headers: markers, parameters and intermediates ----

  /** The digits of a parameter and its subparameters. */
  predicate IsTexts(sub: seq<seq<Byte>>) { sub != [] && forall i :: 0 <= i < |sub| ==> IsDigits(sub[i]) }

  /** One parameter: its subparameters with colons in between. */
  function ParamText(sub: seq<seq<Byte>>): seq<Byte>
    requires IsTexts(sub)
  {
    var n := |sub| - 1;
    if n == 0 then sub[0] else ParamText(sub[..n]) + [0x3A] + sub[n]
  }

  function ValuesOf(sub: seq<seq<Byte>>): (values: seq<Value>)
    requires forall i :: 0 <= i < |sub| ==> IsDigits(sub[i])
    ensures |values| == |sub|
  {
    if sub == [] then [] else ValuesOf(sub[..|sub| - 1]) + [Saturate(Number(sub[|sub| - 1]))]
  }

  predicate IsParams(params: seq<seq<seq<Byte>>>) {
    params != [] && forall i :: 0 <= i < |params| ==> IsTexts(params[i])
  }

  /** All parameters, with semicolons in between. */
  function ParamsText(params: seq<seq<seq<Byte>>>): seq<Byte>
    requires IsParams(params)
  {
    var n := |params| - 1;
    if n == 0 then ParamText(params[0]) else ParamsText(params[..n]) + [0x3B] + ParamText(params[n])
  }

  function GroupsOf(params: seq<seq<seq<Byte>>>): (groups: seq<seq<Value>>)
    requires forall i :: 0 <= i < |params| ==> IsTexts(params[i])
    ensures |groups| == |params| && forall i :: 0 <= i < |groups| ==> groups[i] != []
  {
    if params == [] then []
    else
      assert IsTexts(params[|params| - 1]);
      GroupsOf(params[..|params| - 1]) + [ValuesOf(params[|params| - 1])]
  }

  /** There is room for all their values. */
  predicate Fits(params: seq<seq<seq<Byte>>>) { IsParams(params) && TotalOf(GroupsOf(params)) <= MAX_PARAMS }

  lemma {:induction false} TotalOfInit(groups: seq<seq<Value>>)
    requires groups != []
    ensures TotalOf(groups) == TotalOf(groups[..|groups| - 1]) + |groups[|groups| - 1]|
  {
    var n := |groups| - 1;
    var last := [groups[n]];
    assert groups == groups[..n] + last;
    TotalOfAppend(groups[..n], last);
    assert last[1..] == [];
  }

  /** Reading a separator behind what was read so far. */
  lemma SeparatorRead(f: Family, c: Core, text: seq<Byte>, separator: Byte, rest: seq<Byte>, mid: Core)
    requires c.pending == [] && Run(c, text) == Out(mid, []) && InParams(f, mid)
    requires 0x3A <= separator <= 0x3B
    ensures Run(c, text + [separator] + rest) == Run(Parameter(mid, separator).(state := f.param), rest)
  {
    hide Run, Step, Parameter;
    Sequel(c, text, [separator]);
    SingleByte(mid, separator);
    SeparatorStep(f, mid, separator);
    Sequel(c, text + [separator], rest);
    var d := Goto(Parameter(mid, separator), f.param);
    assert [] + Run(d, rest).actions == Run(d, rest).actions;
  }

  lemma SeparatorStep(f: Family, c: Core, separator: Byte)
    requires InParams(f, c) && 0x3A <= separator <= 0x3B
    ensures Step(c, separator) == Out(Goto(Parameter(c, separator), f.param), [])
    ensures Parameter(c, separator).pending == c.pending
  {
    HeaderStep(f, c, separator);
    hide Step;
  }

  lemma {:induction false} ParamRead(f: Family, c: Core, done: seq<seq<Value>>, sub: seq<seq<Byte>>)
    requires InParams(f, c) && c.param == 0 && c.groups == Groups(done, []) && IsTexts(sub)
    requires TotalOf(done) + |sub| <= MAX_PARAMS
    ensures var n := |sub| - 1;
            Run(c, ParamText(sub)) ==
            Out(c.(groups := Groups(done, ValuesOf(sub)[..n]), param := ValuesOf(sub)[n],
                   state := After(f, c, ParamText(sub))), [])
    decreases |sub|
  {
    hide Run, Groups.All, TotalOf, Number;
    var n := |sub| - 1;
    if n == 0 {
      DigitsSaturate(f, c, sub[0]);
      assert sub[..0] == [] && ValuesOf(sub)[..0] == [];
    } else {
      var before, values := sub[..n], ValuesOf(sub[..n]);
      ParamRead(f, c, done, before);
      var mid := c.(groups := Groups(done, values[..n - 1]), param := values[n - 1],
                    state := After(f, c, ParamText(before)));
      SeparatorRead(f, c, ParamText(before), 0x3A, sub[n], mid);
      assert values[..n - 1] + [values[n - 1]] == values == ValuesOf(sub)[..n];
      DigitsSaturate(f, Goto(EndSubparam(mid), f.param), sub[n]);
    }
  }

  /** One parameter more behind those that have been read. */
  lemma ParamNext(f: Family, c: Core, text: seq<Byte>, groups: seq<seq<Value>>, sub: seq<seq<Byte>>, mid: Core)
    requires InParams(f, c) && Readable(groups) && IsTexts(sub) && TotalOf(groups) + |sub| <= MAX_PARAMS
    requires mid == Reached(c, groups).(state := mid.state) && InParams(f, mid) && Run(c, text) == Out(mid, [])
    ensures Run(c, text + [0x3B] + ParamText(sub))
              == Out(Reached(c, groups + [ValuesOf(sub)]).(state := f.param), [])
  {
    hide Run, Groups.All, TotalOf, ParamText, ValuesOf;
    var n := |groups|;
    TotalOfInit(groups);
    SeparatorRead(f, c, text, 0x3B, ParamText(sub), mid);
    var last := groups[n - 1];
    assert last[..|last| - 1] + [last[|last| - 1]] == last && groups[..n - 1] + [last] == groups;
    ParamRead(f, Goto(EndParam(mid), f.param), groups, sub);
    assert (groups + [ValuesOf(sub)])[..n] == groups;
  }

  lemma AllReadable(params: seq<seq<seq<Byte>>>, n: nat)
    requires Fits(params) && 0 < n <= |params|
    ensures GroupsOf(params[..n]) == GroupsOf(params)[..n] && Readable(GroupsOf(params)[..n]) && Fits(params[..n])
    ensures n < |params| ==> TotalOf(GroupsOf(params)[..n]) + |params[n]| <= MAX_PARAMS
    decreases |params| - n
  {
    if n == |params| {
      assert params[..n] == params && GroupsOf(params)[..n] == GroupsOf(params);
    } else {
      AllReadable(params, n + 1);
      var more := params[..n + 1];
      assert more[..n] == params[..n] && more[n] == params[n];
      assert GroupsOf(more) == GroupsOf(params[..n]) + [ValuesOf(params[n])];
      assert GroupsOf(params)[..n + 1][..n] == GroupsOf(params)[..n];
      TotalOfInit(GroupsOf(more));
    }
  }

  lemma {:induction false} ParamsRead(f: Family, c: Core, params: seq<seq<seq<Byte>>>)
    requires InParams(f, c) && c.param == 0 && c.groups == NO_GROUPS && Fits(params)
    ensures Run(c, ParamsText(params))
              == Out(Reached(c, GroupsOf(params)).(state := After(f, c, ParamsText(params))), [])
    decreases |params|
  {
    hide Run, Groups.All, TotalOf, ParamText, ValuesOf;
    var n := |params| - 1;
    if n == 0 {
      var groups := GroupsOf(params);
      TotalOfInit(groups);
      ParamRead(f, c, [], params[0]);
      assert groups[..0] == [];
    } else {
      var before := params[..n];
      AllReadable(params, n);
      ParamsRead(f, c, before);
      hide Readable, Fits, Reached;
      ParamNext(f, c, ParamsText(before), GroupsOf(before), params[n], Run(c, ParamsText(before)).core);
    }
  }

  /** Groups without an empty one. */
  predicate Readable(groups: seq<seq<Value>>) {
    groups != [] && TotalOf(groups) <= MAX_PARAMS && forall i :: 0 <= i < |groups| ==> groups[i] != []
  }

  /** All parameters have been read and the last value is not ended yet. */
  function Reached(c: Core, groups: seq<seq<Value>>): Core
    requires groups != [] && groups[|groups| - 1] != []
  {
    var last := groups[|groups| - 1];
    c.(groups := Groups(groups[..|groups| - 1], last[..|last| - 1]), param := last[|last| - 1])
  }

  /** Ending it makes them all. */
  lemma ReachedEnds(c: Core, groups: seq<seq<Value>>)
    requires Readable(groups)
    ensures EndParams(Reached(c, groups)) == Reached(c, groups).(groups := Groups(groups, []))
    ensures EndParams(Reached(c, groups)).groups.All() == groups
  {
    var n := |groups| - 1;
    var last := groups[n];
    TotalOfInit(groups);
    assert last[..|last| - 1] + [last[|last| - 1]] == last && groups[..n] + [last] == groups;
  }

  predicate IsIntermediates(inter: seq<Byte>) { forall i :: 0 <= i < |inter| ==> 0x20 <= inter[i] <= 0x2F }

  /** Of all intermediates the first two count. */
  function Kept2(inter: seq<Byte>): seq<Byte> { inter[..Min(MAX_INTERMEDIATES, |inter|)] }

  /** One intermediate more; `inter` are those collected before. */
  lemma CollectNext(c: Core, inter: seq<Byte>, b: Byte)
    requires c.intermediates == Kept2(inter) && c.ignoring == (|inter| > MAX_INTERMEDIATES)
    ensures Collect(c, b) ==
            c.(intermediates := Kept2(inter + [b]), ignoring := |inter + [b]| > MAX_INTERMEDIATES)
  {
  }

  lemma {:induction false} IntermediatesRead(f: Family, c: Core, before: seq<Byte>, inter: seq<Byte>)
    requires IsFamily(f) && c.pending == [] && (c.state == f.entry || c.state == f.param || c.state == f.intermediate)
    requires IsIntermediates(inter)
    requires c.intermediates == Kept2(before) && c.ignoring == (|before| > MAX_INTERMEDIATES)
    ensures Run(c, inter) ==
            Out(c.(intermediates := Kept2(before + inter), ignoring := |before + inter| > MAX_INTERMEDIATES,
                   state := if inter == [] then c.state else f.intermediate), [])
    decreases |inter|
  {
    if inter == [] {
      assert before + [] == before;
    } else {
      hide Run, Kept2, IsFamily;
      var n := |inter| - 1;
      var s, b := inter[..n], inter[n];
      assert inter == s + [b] && before + inter == before + s + [b];
      IntermediatesRead(f, c, before, s);
      IntermediateNext(f, c, s, before + s, b, Run(c, s).core);
    }
  }

  lemma IntermediateNext(f: Family, c: Core, s: seq<Byte>, before: seq<Byte>, b: Byte, d: Core)
    requires IsFamily(f) && c.pending == [] && Run(c, s) == Out(d, []) && d.pending == [] && 0x20 <= b <= 0x2F
    requires d.state == f.entry || d.state == f.param || d.state == f.intermediate
    requires d.intermediates == Kept2(before) && d.ignoring == (|before| > MAX_INTERMEDIATES)
    ensures Run(c, s + [b]) ==
            Out(d.(intermediates := Kept2(before + [b]), ignoring := |before + [b]| > MAX_INTERMEDIATES,
                   state := f.intermediate), [])
  {
    hide Run, Step, Collect, Kept2;
    Sequel(c, s, [b]);
    SingleByte(d, b);
    IntermediateStep(f, d, b);
    CollectNext(d, before, b);
  }

  lemma IntermediateStep(f: Family, c: Core, b: Byte)
    requires IsFamily(f) && (c.state == f.entry || c.state == f.param || c.state == f.intermediate) && 0x20 <= b <= 0x2F
    ensures Step(c, b) == Out(Goto(Collect(c, b), f.intermediate), []) && Collect(c, b).pending == c.pending
  {
    HeaderStep(f, c, b);
    hide Step;
  }

  predicate IsMarker(marker: seq<Byte>) { |marker| <= 1 && forall i :: 0 <= i < |marker| ==> 0x3C <= marker[i] <= 0x3F }

  function Introducer(f: Family): Byte { if f == CSI then 0x5B else 0x50 }

  function HeaderText(f: Family, marker: seq<Byte>, params: seq<seq<seq<Byte>>>, inter: seq<Byte>): seq<Byte>
    requires IsParams(params)
  {
    [ESC, Introducer(f)] + marker + ParamsText(params) + inter
  }

  lemma MarkerRead(f: Family, c: Core, b: Byte)
    requires IsFamily(f) && c.state == f.entry && 0x3C <= b <= 0x3F && c.intermediates == []
    ensures Step(c, b) == Out(c.(intermediates := [b], state := f.param), [])
  {
    HeaderStep(f, c, b);
    hide Step;
  }

  lemma Introduced(f: Family, c: Core)
    requires IsFamily(f) && c.state == Ground && c.pending == []
    ensures Run(c, [ESC, Introducer(f)]) == Out(Goto(Reset(c), f.entry), [])
  {
    var e := Goto(Reset(c), Escape);
    assert [ESC, Introducer(f)][1..] == [Introducer(f)];
    SingleByte(e, Introducer(f));
  }

  lemma IntroducerRead(f: Family, c: Core, marker: seq<Byte>)
    requires IsFamily(f) && c.state == Ground && c.pending == [] && IsMarker(marker)
    ensures Run(c, [ESC, Introducer(f)] + marker) ==
            Out(Reset(c).(intermediates := marker, state := if marker == [] then f.entry else f.param), [])
  {
    hide Step;
    Introduced(f, c);
    Sequel(c, [ESC, Introducer(f)], marker);
    if marker != [] {
      assert marker == [marker[0]] && [] + marker == marker;
      MarkerRead(f, Goto(Reset(c), f.entry), marker[0]);
      SingleByte(Goto(Reset(c), f.entry), marker[0]);
    }
  }

  /** A header of either family, read from Ground. */
  lemma HeaderRead(f: Family, c: Core, marker: seq<Byte>, params: seq<seq<seq<Byte>>>, inter: seq<Byte>)
    returns (d: Core)
    requires IsFamily(f) && c.state == Ground && c.pending == []
    requires IsMarker(marker) && Fits(params) && IsIntermediates(inter)
    ensures Run(c, HeaderText(f, marker, params, inter)) == Out(d, []) && d.pending == []
    ensures d.state == f.entry || d.state == f.param || d.state == f.intermediate
    ensures d.state == f.param || inter != [] || ParamsText(params) == [] == marker
    ensures if inter == [] then d.state != f.intermediate else d.state == f.intermediate
    ensures d == Reached(d, GroupsOf(params))
    ensures d.intermediates == Kept2(marker + inter) && d.ignoring == (|marker + inter| > MAX_INTERMEDIATES)
  {
    hide Run, ParamsText, Reset, GroupsOf;
    var a := [ESC, Introducer(f)] + marker;
    IntroducerRead(f, c, marker);
    ResetClears(c);
    Sequel(c, a, ParamsText(params));
    ParamsRead(f, Run(c, a).core, params);
    var o := Run(c, a + ParamsText(params));
    Sequel(c, a + ParamsText(params), inter);
    IntermediatesRead(f, o.core, marker, inter);
    d := Run(c, a + ParamsText(params) + inter).core;
  }

  lemma ResetClears(c: Core)
    ensures Cleared(Reset(c)) && Reset(c).pending == c.pending
  {
  }

  lemma GroupsReadable(params: seq<seq<seq<Byte>>>)
    requires Fits(params)
    ensures Readable(GroupsOf(params))
  {
  }

  // ---- control sequences and device control strings ----

  /** Every control sequence, empty parameters and superfluous intermediates included, is read from
      Ground as one dispatch of its parameters and its first two markers and intermediates, back in
      Ground; the flag tells whether there were more. */
  lemma CsiReads(c: Core, marker: seq<Byte>, params: seq<seq<seq<Byte>>>, inter: seq<Byte>, final: Byte)
    requires c.state == Ground && c.pending == []
    requires IsMarker(marker) && Fits(params) && IsIntermediates(inter) && 0x40 <= final <= 0x7E
    ensures var o := Run(c, HeaderText(CSI, marker, params, inter) + [final]);
            && o.actions == [CsiDispatch(GroupsOf(params), Kept2(marker + inter),
                                         |marker + inter| > MAX_INTERMEDIATES, final)]
            && o.core.state == Ground && o.core.pending == []
  {
    hide Run, HeaderText, Reached, GroupsOf, Kept2, Readable;
    var d := HeaderRead(CSI, c, marker, params, inter);
    Sequel(c, HeaderText(CSI, marker, params, inter), [final]);
    SingleByte(d, final);
    GroupsReadable(params);
    ReachedEnds(d, GroupsOf(params));
  }

  /** No parameter at all is one parameter 0. */
  lemma CsiWithoutParams(c: Core, final: Byte)
    requires c.state == Ground && c.pending == [] && 0x40 <= final <= 0x7E
    ensures Run(c, [ESC, 0x5B, final]).actions == [CsiDispatch([[0]], [], false, final)]
  {
    var none: seq<seq<seq<Byte>>> := [[[]]];
    assert none[..0] == [] && none[0][..0] == [] && ValuesOf(none[0]) == [0] && GroupsOf(none) == [[0]];
    assert GroupsOf(none)[1..] == [];
    CsiReads(c, [], none, [], final);
    assert HeaderText(CSI, [], none, []) + [final] == [ESC, 0x5B, final];
  }

  /** What is printed for a parameter: the digits of its values. */
  function Printed(group: seq<Value>): (sub: seq<seq<Byte>>)
    ensures |sub| == |group| && forall i :: 0 <= i < |sub| ==> IsDigits(sub[i])
  {
    if group == [] then [] else Printed(group[..|group| - 1]) + [Digits(group[|group| - 1])]
  }

  function PrintedAll(groups: seq<seq<Value>>): (params: seq<seq<seq<Byte>>>)
    requires forall i :: 0 <= i < |groups| ==> groups[i] != []
    ensures |params| == |groups| && forall i :: 0 <= i < |params| ==> IsTexts(params[i])
  {
    if groups == [] then [] else PrintedAll(groups[..|groups| - 1]) + [Printed(groups[|groups| - 1])]
  }

  lemma {:induction false} PrintedReads(group: seq<Value>)
    ensures ValuesOf(Printed(group)) == group
  {
    if group != [] {
      hide Number, Digits, IsDigits;
      var n := |group| - 1;
      PrintedReads(group[..n]);
      DigitsNumber(group[n]);
      assert Printed(group)[..n] == Printed(group[..n]);
    }
  }

  lemma {:induction false} PrintedAllReads(groups: seq<seq<Value>>)
    requires forall i :: 0 <= i < |groups| ==> groups[i] != []
    ensures GroupsOf(PrintedAll(groups)) == groups
  {
    if groups != [] {
      hide Printed, ValuesOf, IsTexts;
      var n := |groups| - 1;
      PrintedAllReads(groups[..n]);
      PrintedReads(groups[n]);
      assert PrintedAll(groups)[..n] == PrintedAll(groups[..n]);
    }
  }

  /** Printing parameters and parsing them from Ground is one dispatch of just those parameters,
      back in Ground. */
  lemma CsiRoundTrip(c: Core, marker: seq<Byte>, groups: seq<seq<Value>>, inter: seq<Byte>, final: Byte)
    requires c.state == Ground && c.pending == []
    requires IsMarker(marker) && Readable(groups) && IsIntermediates(inter) && |marker| + |inter| <= MAX_INTERMEDIATES
    requires 0x40 <= final <= 0x7E
    ensures var o := Run(c, HeaderText(CSI, marker, PrintedAll(groups), inter) + [final]);
            && o.actions == [CsiDispatch(groups, marker + inter, false, final)]
            && o.core.state == Ground && o.core.pending == []
  {
    hide Run, HeaderText, GroupsOf;
    PrintedAllReads(groups);
    CsiReads(c, marker, PrintedAll(groups), inter, final);
    assert Kept2(marker + inter) == marker + inter;
  }

  predicate IsData(data: seq<Byte>) {
    forall i :: 0 <= i < |data| ==> data[i] <= 0x7E && !Cancels(data[i]) && data[i] != ESC
  }

  function Puts(data: seq<Byte>): seq<Action> { if data == [] then [] else [Put(data[0])] + Puts(data[1..]) }

  lemma {:induction false} DataRead(c: Core, data: seq<Byte>)
    requires c.state == DcsPassthrough && c.pending == [] && IsData(data)
    ensures Run(c, data) == Out(c, Puts(data))
    decreases |data|
  {
    if data != [] { DataRead(c, data[1..]); }
  }

  /** The head of a device control string, up to its final byte. */
  lemma DcsHooked(c: Core, marker: seq<Byte>, params: seq<seq<seq<Byte>>>, inter: seq<Byte>, final: Byte)
    returns (e: Core)
    requires c.state == Ground && c.pending == []
    requires IsMarker(marker) && Fits(params) && IsIntermediates(inter) && 0x40 <= final <= 0x7E
    ensures e.state == DcsPassthrough && e.pending == []
    ensures Run(c, HeaderText(DCS, marker, params, inter) + [final]) ==
            Out(e, [Hook(GroupsOf(params), Kept2(marker + inter), |marker + inter| > MAX_INTERMEDIATES, final)])
  {
    hide Run, HeaderText, Reached, GroupsOf, Kept2, Readable;
    var d := HeaderRead(DCS, c, marker, params, inter);
    Sequel(c, HeaderText(DCS, marker, params, inter), [final]);
    SingleByte(d, final);
    GroupsReadable(params);
    ReachedEnds(d, GroupsOf(params));
    e := Step(d, final).core;
  }

  lemma Unhooks(e: Core, end: Byte)
    requires e.state == DcsPassthrough && (end == 0x9C || end == ESC || Cancels(end))
    ensures Step(e, end).actions == [Unhook] + (if Cancels(end) then [Execute(end)] else [])
    ensures Step(e, end).core.state == if end == ESC then Escape else Ground
  {
  }

  /** A device control string is hooked with its parameters and its first two markers and
      intermediates, every byte of its data is put, and it is unhooked at the terminator, from
      where Ground or an escape goes on. */
  lemma DcsReads(c: Core, marker: seq<Byte>, params: seq<seq<seq<Byte>>>, inter: seq<Byte>, final: Byte,
                 data: seq<Byte>, end: Byte)
    requires c.state == Ground && c.pending == []
    requires IsMarker(marker) && Fits(params) && IsIntermediates(inter)
    requires 0x40 <= final <= 0x7E && IsData(data) && (end == 0x9C || end == ESC || Cancels(end))
    ensures var o := Run(c, HeaderText(DCS, marker, params, inter) + [final] + data + [end]);
            && o.actions ==
               [Hook(GroupsOf(params), Kept2(marker + inter), |marker + inter| > MAX_INTERMEDIATES, final)]
               + Puts(data) + [Unhook] + (if Cancels(end) then [Execute(end)] else [])
            && o.core.state == if end == ESC then Escape else Ground
  {
    hide Run, Step, HeaderText, GroupsOf, Kept2, Puts, IsMarker, IsIntermediates;
    var e := DcsHooked(c, marker, params, inter, final);
    var text := HeaderText(DCS, marker, params, inter) + [final];
    Sequel(c, text, data);
    DataRead(e, data);
    Sequel(c, text + data, [end]);
    SingleByte(e, end);
    Unhooks(e, end);
  }

  lemma DcsRoundTrip(c: Core, marker: seq<Byte>, groups: seq<seq<Value>>, inter: seq<Byte>, final: Byte,
                     data: seq<Byte>, end: Byte)
    requires c.state == Ground && c.pending == []
    requires IsMarker(marker) && Readable(groups) && IsIntermediates(inter) && |marker| + |inter| <= MAX_INTERMEDIATES
    requires 0x40 <= final <= 0x7E && IsData(data) && (end == 0x9C || end == ESC || Cancels(end))
    ensures var o := Run(c, HeaderText(DCS, marker, PrintedAll(groups), inter) + [final] + data + [end]);
            && o.actions == [Hook(groups, marker + inter, false, final)] + Puts(data) + [Unhook]
                            + (if Cancels(end) then [Execute(end)] else [])
            && o.core.state == if end == ESC then Escape else Ground
  {
    hide Run, HeaderText, GroupsOf;
    PrintedAllReads(groups);
    DcsReads(c, marker, PrintedAll(groups), inter, final, data, end);
    assert Kept2(marker + inter) == marker + inter;
  }

  // ---- operating system commands ----

  predicate Terminates(b: Byte) { b == 0x07 || b == 0x18 || b == 0x1A || b == ESC }

  predicate IsPayload(s: seq<Byte>) { forall i :: 0 <= i < |s| ==> !Terminates(s[i]) }

  /** The payload without C0 controls. */
  function Kept(s: seq<Byte>): seq<Byte> {
    if s == [] then []
    else Kept(s[..|s| - 1]) + (if s[|s| - 1] < 0x20 then [] else [s[|s| - 1]])
  }

  /** Splitting at semicolons. */
  function Split(s: seq<Byte>): (fields: seq<seq<Byte>>)
    ensures fields != []
  {
    if s == [] then [[]]
    else
      var fields := Split(s[..|s| - 1]);
      var n := |fields| - 1;
      if s[|s| - 1] == 0x3B then fields + [[]] else fields[..n] + [fields[n] + [s[|s| - 1]]]
  }

  function FirstFields(fields: seq<seq<Byte>>): seq<seq<Byte>> { fields[..Min(MAX_OSC_PARAMS, |fields|)] }

  lemma {:induction false} FieldsFrame(raw: seq<Byte>, params: seq<(nat, nat)>, b: Byte)
    requires forall i :: 0 <= i < |params| ==> params[i].0 <= params[i].1 <= |raw|
    ensures Fields(raw + [b], params) == Fields(raw, params)
  {
    if params != [] {
      assert (raw + [b])[params[0].0..params[0].1] == raw[params[0].0..params[0].1];
      FieldsFrame(raw, params[1..], b);
    }
  }

  /** What the buffer and the bounds stand for after reading `fields`, the last one open. */
  ghost predicate Holds(c: Core, fields: seq<seq<Byte>>)
    requires fields != []
  {
    var n := |fields| - 1;
    && BoundsOk(c.oscRaw, c.oscParams)
    && |c.oscParams| == Min(n, MAX_OSC_PARAMS)
    && Fields(c.oscRaw, c.oscParams) == fields[..|c.oscParams|]
    && (n < MAX_OSC_PARAMS ==> LastEnd(c) <= |c.oscRaw| && c.oscRaw[LastEnd(c)..] == fields[n])
  }

  lemma HoldsByte(c: Core, fields: seq<seq<Byte>>, b: Byte)
    requires fields != [] && Holds(c, fields)
    ensures Holds(c.(oscRaw := c.oscRaw + [b]), fields[..|fields| - 1] + [fields[|fields| - 1] + [b]])
  {
    FieldsFrame(c.oscRaw, c.oscParams, b);
    ByteKeepsBounds(c, b);
    var n := |fields| - 1;
    if n < MAX_OSC_PARAMS { assert (c.oscRaw + [b])[LastEnd(c)..] == fields[n] + [b]; }
  }

  lemma HoldsField(c: Core, fields: seq<seq<Byte>>)
    requires fields != [] && Holds(c, fields)
    ensures Holds(EndField(c), fields + [[]])
  {
    FieldKeepsBounds(c);
    var n := |fields| - 1;
    if n < MAX_OSC_PARAMS {
      FieldsAppend(c.oscRaw, c.oscParams, (LastEnd(c), |c.oscRaw|));
      assert c.oscRaw[LastEnd(c)..] == c.oscRaw[LastEnd(c)..|c.oscRaw|];
    }
  }

  /** Ending the last field makes the recorded ones the first sixteen. */
  lemma HoldsEnd(c: Core, fields: seq<seq<Byte>>)
    requires fields != [] && Holds(c, fields)
    ensures Fields(c.oscRaw, EndField(c).oscParams) == FirstFields(fields)
  {
    HoldsField(c, fields);
    assert EndField(c).oscRaw == c.oscRaw;
  }

  lemma HoldsStart(c: Core, s: seq<Byte>)
    requires c.oscRaw == [] && c.oscParams == [] && s == []
    ensures Holds(c, Split(Kept(s)))
  {
  }

  /** What one more byte does to the fields. */
  lemma SplitNext(s: seq<Byte>, b: Byte)
    ensures b < 0x20 ==> Split(Kept(s + [b])) == Split(Kept(s))
    ensures b == 0x3B ==> Split(Kept(s + [b])) == Split(Kept(s)) + [[]]
    ensures b >= 0x20 && b != 0x3B ==>
              Split(Kept(s + [b]))
              == Split(Kept(s))[..|Split(Kept(s))| - 1] + [Split(Kept(s))[|Split(Kept(s))| - 1] + [b]]
  {
    assert (s + [b])[..|s|] == s;
    if b >= 0x20 {
      KeptByte(s + [b]);
    } else {
      assert Kept(s) + [] == Kept(s);
    }
  }

  /** One more payload byte. */
  lemma HoldsNext(d: Core, s: seq<Byte>, b: Byte)
    requires d.state == OscString && !Terminates(b) && Holds(d, Split(Kept(s)))
    ensures Step(d, b).actions == [] && Holds(Step(d, b).core, Split(Kept(s + [b])))
    ensures Step(d, b).core == d.(oscRaw := Step(d, b).core.oscRaw, oscParams := Step(d, b).core.oscParams)
  {
    hide Holds, Split, Kept;
    SplitNext(s, b);
    HoldsByte(d, Split(Kept(s)), b);
    HoldsField(d, Split(Kept(s)));
  }

  lemma {:induction false} PayloadRead(c: Core, s: seq<Byte>)
    requires c.state == OscString && c.pending == [] && c.oscRaw == [] && c.oscParams == [] && IsPayload(s)
    ensures Run(c, s).actions == []
    ensures Run(c, s).core == c.(oscRaw := Run(c, s).core.oscRaw, oscParams := Run(c, s).core.oscParams)
    ensures Holds(Run(c, s).core, Split(Kept(s)))
    decreases |s|
  {
    hide Holds, Split, Kept, OscStep;
    if s == [] {
      HoldsStart(c, s);
    } else {
      var n := |s| - 1;
      var d := Run(c, s[..n]).core;
      PayloadRead(c, s[..n]);
      assert s == s[..n] + [s[n]];
      PayloadSequel(c, s[..n], s[n], d);
      HoldsNext(d, s[..n], s[n]);
    }
  }

  lemma PayloadSequel(c: Core, s: seq<Byte>, b: Byte, d: Core)
    requires c.pending == [] && Run(c, s) == Out(d, []) && d.pending == [] && d.state != Ground
    ensures Run(c, s + [b]) == Step(d, b)
  {
    Sequel(c, s, [b]);
    SingleByte(d, b);
  }

  lemma KeptByte(s: seq<Byte>)
    requires s != [] && s[|s| - 1] >= 0x20
    ensures Kept(s)[..|Kept(s)| - 1] == Kept(s[..|s| - 1]) && Kept(s)[|Kept(s)| - 1] == s[|s| - 1]
  {
  }

  /** Every command free of terminators is dispatched as the first sixteen fields of its payload
      without C0 controls, split at semicolons, whatever the parser holds from before. */
  lemma OscDispatchesFields(c: Core, payload: seq<Byte>, end: Byte)
    requires c.state == Ground && c.pending == [] && IsPayload(payload) && Terminates(end)
    ensures var o := Run(c, [ESC, 0x5D] + payload + [end]);
            && o.actions == [OscDispatch(FirstFields(Split(Kept(payload))), end == 0x07)]
                            + (if Cancels(end) then [Execute(end)] else [])
            && o.core.state == (if end == ESC then Escape else Ground)
            && o.core.oscRaw == [] && o.core.oscParams == []
  {
    hide Kept, Split, Holds, FirstFields, Fields;
    var start := OpeningRead(c);
    PayloadRead(start, payload);
    var d := Run(start, payload).core;
    Sequel(c, [ESC, 0x5D], payload);
    Sequel(c, [ESC, 0x5D] + payload, [end]);
    HoldsEnd(d, Split(Kept(payload)));
    SingleByte(d, end);
  }

  lemma OpeningRead(c: Core) returns (start: Core)
    requires c.state == Ground && c.pending == []
    ensures Run(c, [ESC, 0x5D]) == Out(start, [])
    ensures start.state == OscString && start.pending == [] && start.oscRaw == [] && start.oscParams == []
  {
    start := Goto(ClearOsc(Goto(Reset(c), Escape)), OscString);
    assert [ESC, 0x5D][1..] == [0x5D];
    SingleByte(Goto(Reset(c), Escape), 0x5D);
  }
}
