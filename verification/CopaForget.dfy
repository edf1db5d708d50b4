/** Ground forgets history: nothing left over in a parser's parameters, intermediates or string
    buffer can be seen once it is back in Ground. */
module CopaForget {
  import opened CopaParams
  import opened CopaUtf8
  import opened CopaMachine

  /** The two parsers differ only in what their state no longer uses. */
  predicate Alike(c: Core, d: Core) {
    && c.state == d.state && c.pending == d.pending
    && (c.state != Ground ==>
          c.intermediates == d.intermediates && c.ignoring == d.ignoring && c.groups == d.groups && c.param == d.param)
    && (c.state == OscString ==> c.oscRaw == d.oscRaw && c.oscParams == d.oscParams)
  }

  /** The same but for the string buffer. */
  predicate SameHeader(c: Core, d: Core) { d == c.(oscRaw := d.oscRaw, oscParams := d.oscParams) }

  lemma HeaderAlike(f: Family, c: Core, d: Core, b: Byte)
    requires SameHeader(c, d) && 0x20 <= b <= 0x3F
    ensures SameHeader(HeaderByte(f, c, b), HeaderByte(f, d, b))
  {
  }

  lemma CsiAlike(c: Core, d: Core, b: Byte)
    requires SameHeader(c, d)
    ensures CsiStep(c, b).actions == CsiStep(d, b).actions && SameHeader(CsiStep(c, b).core, CsiStep(d, b).core)
    ensures CsiStep(c, b).core.state != OscString || c.state == OscString
  {
    hide HeaderByte;
    if 0x20 <= b <= 0x3F { HeaderAlike(CSI, c, d, b); HeaderStates(CSI, c, b); }
  }

  lemma DcsAlike(c: Core, d: Core, b: Byte)
    requires SameHeader(c, d)
    ensures DcsStep(c, b).actions == DcsStep(d, b).actions && SameHeader(DcsStep(c, b).core, DcsStep(d, b).core)
    ensures DcsStep(c, b).core.state != OscString || c.state == OscString
  {
    hide HeaderByte;
    if 0x20 <= b <= 0x3F { HeaderAlike(DCS, c, d, b); HeaderStates(DCS, c, b); }
  }

  lemma HeaderStates(f: Family, c: Core, b: Byte)
    requires 0x20 <= b <= 0x3F && f.param != OscString && f.intermediate != OscString && f.ignore != OscString
    ensures HeaderByte(f, c, b).state != OscString
  {
  }

  lemma EscapeAlike(c: Core, d: Core, b: Byte)
    requires c.state.Escape? && Alike(c, d)
    ensures EscapeStep(c, b).actions == EscapeStep(d, b).actions && Alike(EscapeStep(c, b).core, EscapeStep(d, b).core)
  {
  }

  lemma StepAlike(c: Core, d: Core, b: Byte)
    requires c.state != Ground && Alike(c, d)
    ensures Step(c, b).actions == Step(d, b).actions && Alike(Step(c, b).core, Step(d, b).core)
  {
    hide CsiStep, DcsStep, EscapeStep;
    match c.state
    case CsiEntry => CsiAlike(c, d, b);
    case CsiIgnore => CsiAlike(c, d, b);
    case CsiIntermediate => CsiAlike(c, d, b);
    case CsiParam => CsiAlike(c, d, b);
    case DcsEntry => DcsAlike(c, d, b);
    case DcsIgnore => DcsAlike(c, d, b);
    case DcsIntermediate => DcsAlike(c, d, b);
    case DcsParam => DcsAlike(c, d, b);
    case Escape => EscapeAlike(c, d, b);
    case OscString =>
    case ApcString =>
    case _ =>
  }

  lemma {:induction false} RunAlike(c: Core, d: Core, s: seq<Byte>)
    requires c.pending == [] && Alike(c, d)
    ensures Run(c, s).actions == Run(d, s).actions && Alike(Run(c, s).core, Run(d, s).core)
    decreases |s|
  {
    if s == [] {
    } else if c.state != Ground {
      StepAlike(c, d, s[0]);
      RunAlike(Step(c, s[0]).core, Step(d, s[0]).core, s[1..]);
    } else if s[0] == ESC {
      RunAlike(Goto(Reset(c), Escape), Goto(Reset(d), Escape), s[1..]);
    } else {
      match Decode(s)
      case Char(_, len) => RunAlike(c, d, s[len..]);
      case Invalid(len) => RunAlike(c, d, s[len..]);
      case Incomplete =>
    }
  }

  /** Two parsers in Ground with nothing pending do the same on every input, whatever they hold
      from before, and are again alike afterwards. */
  lemma GroundForgets(c: Core, d: Core, s: seq<Byte>)
    requires c.state == Ground && d.state == Ground && c.pending == [] && d.pending == []
    ensures Run(c, s).actions == Run(d, s).actions
    ensures Run(c, s).core.state == Run(d, s).core.state && Run(c, s).core.pending == Run(d, s).core.pending
    ensures Alike(Run(c, s).core, Run(d, s).core)
  {
    RunAlike(c, d, s);
  }

  /** Nothing has been collected. */
  predicate Cleared(c: Core) { c.intermediates == [] && !c.ignoring && c.groups == NO_GROUPS && c.param == 0 }

  /** The states that must be entered with nothing collected. */
  predicate Opening(s: State) {
    s == Escape || s == SosString || s == ApcString || s == PmString || s == OscString || s == CsiEntry || s == DcsEntry
  }

  /** Recorded fields lie within the string buffer, one behind the other. */
  ghost predicate BoundsOk(raw: seq<Byte>, params: seq<(nat, nat)>) {
    && |params| <= MAX_OSC_PARAMS
    && (forall i :: 0 <= i < |params| ==> params[i].0 <= params[i].1 <= |raw|)
    && (forall i :: 0 < i < |params| ==> params[i].0 == params[i - 1].1)
  }

  /** The buffer is empty outside the strings that use it. */
  ghost predicate BufferOk(c: Core) {
    && BoundsOk(c.oscRaw, c.oscParams)
    && (c.state != OscString && c.state != ApcString ==> c.oscRaw == [] && c.oscParams == [])
  }

  ghost predicate CoreOk(c: Core) {
    && (Opening(c.state) ==> Cleared(c))
    && SizesOk(c)
    && BufferOk(c)
  }

  lemma GroupsGrow(g: Groups, item: Value)
    ensures g.Push(item).Total() == g.Extend(item).Total() == g.Total() + 1
  {
    TotalOfAppend(g.done, [g.current + [item]]);
    assert [g.current + [item]][1..] == [];
  }

  lemma StepKeepsOpening(c: Core, b: Byte)
    requires c.state != Ground && (Opening(c.state) ==> Cleared(c))
    ensures Opening(Step(c, b).core.state) ==> Cleared(Step(c, b).core)
  {
  }

  predicate SizesOk(c: Core) { |c.intermediates| <= MAX_INTERMEDIATES && c.groups.Total() <= MAX_PARAMS }

  lemma CollectKeepsSizes(c: Core, b: Byte)
    requires SizesOk(c)
    ensures SizesOk(Collect(c, b)) && SizesOk(EndSubparam(c)) && SizesOk(EndParam(c)) && SizesOk(EndParams(c))
    ensures 0x30 <= b <= 0x39 ==> SizesOk(Digit(c, b))
  {
    hide Groups.Total;
    GroupsGrow(c.groups, c.param);
  }

  lemma StepKeepsSizes(c: Core, b: Byte)
    requires c.state != Ground && SizesOk(c)
    ensures SizesOk(Step(c, b).core)
  {
    hide Groups.Total, Groups.All, Collect, EndSubparam, EndParam, EndParams, Digit;
    CollectKeepsSizes(c, b);
    EmptyTotal();
  }

  lemma EmptyTotal()
    ensures NO_GROUPS.Total() == 0
  {
  }

  lemma {:induction false} FieldsAppend(raw: seq<Byte>, params: seq<(nat, nat)>, p: (nat, nat))
    ensures Fields(raw, params + [p]) == Fields(raw, params) + [Slice(raw, p)]
  {
    if params == [] {
      assert [p][1..] == [];
    } else {
      assert (params + [p])[1..] == params[1..] + [p];
      FieldsAppend(raw, params[1..], p);
    }
  }

  lemma FieldKeepsBounds(c: Core)
    requires BoundsOk(c.oscRaw, c.oscParams)
    ensures BoundsOk(EndField(c).oscRaw, EndField(c).oscParams) && EndField(c).state == c.state
  {
  }

  lemma ByteKeepsBounds(c: Core, b: Byte)
    requires BoundsOk(c.oscRaw, c.oscParams)
    ensures BoundsOk(c.oscRaw + [b], c.oscParams)
  {
  }

  lemma OscKeepsBuffer(c: Core, b: Byte)
    requires c.state == OscString && BoundsOk(c.oscRaw, c.oscParams)
    ensures BufferOk(OscStep(c, b).core)
  {
    hide EndField;
    FieldKeepsBounds(c);
    ByteKeepsBounds(c, b);
    assert BoundsOk([], []);
  }

  lemma ApcKeepsBuffer(c: Core, b: Byte)
    requires c.state == ApcString && BoundsOk(c.oscRaw, c.oscParams)
    ensures BufferOk(ApcStep(c, b).core)
  {
    hide EndField;
    ByteKeepsBounds(c, b);
    FieldKeepsBounds(c.(oscRaw := c.oscRaw + [b]));
    assert BoundsOk([], []);
  }

  /** No other state touches the buffer. */
  lemma OthersKeepBuffer(c: Core, b: Byte)
    requires c.state != Ground && c.state != OscString && c.state != ApcString && c.oscRaw == [] && c.oscParams == []
    ensures Step(c, b).core.oscRaw == [] && Step(c, b).core.oscParams == []
  {
    hide Groups.All, Groups.Total, Groups.Full;
  }

  lemma StepKeepsBuffer(c: Core, b: Byte)
    requires c.state != Ground && BufferOk(c)
    ensures BufferOk(Step(c, b).core)
  {
    hide OscStep, ApcStep, CsiStep, DcsStep, EscapeStep, EscapeIntermediateStep, PassthroughStep, OpaqueStep;
    if c.state == OscString {
      OscKeepsBuffer(c, b);
    } else if c.state == ApcString {
      ApcKeepsBuffer(c, b);
    } else {
      OthersKeepBuffer(c, b);
    }
  }

  /** Over every input: whatever opens a sequence or a string starts from cleared parameters, even
      where an APC, SOS or PM string was left without a reset, and field bounds stay in range. */
  lemma {:induction false} RunKeepsOk(c: Core, s: seq<Byte>)
    requires c.pending == [] && CoreOk(c)
    ensures CoreOk(Run(c, s).core)
    decreases |s|
  {
    if s == [] {
    } else if c.state != Ground {
      StepKeepsOpening(c, s[0]);
      StepKeepsSizes(c, s[0]);
      StepKeepsBuffer(c, s[0]);
      RunKeepsOk(Step(c, s[0]).core, s[1..]);
    } else if s[0] == ESC {
      RunKeepsOk(Goto(Reset(c), Escape), s[1..]);
    } else {
      match Decode(s)
      case Char(_, len) => RunKeepsOk(c, s[len..]);
      case Invalid(len) => RunKeepsOk(c, s[len..]);
      case Incomplete =>
    }
  }
}
