/** What the terminal parser does, one decoded unit or control byte at a time. */
module CopaMachine {
  import opened Common
  import opened CopaParams
  import opened CopaUtf8

  const MAX_INTERMEDIATES: nat := 2
  const MAX_OSC_PARAMS: nat := 16

  datatype State =
    | CsiEntry | CsiIgnore | CsiIntermediate | CsiParam
    | DcsEntry | DcsIgnore | DcsIntermediate | DcsParam | DcsPassthrough
    | Escape | EscapeIntermediate | OscString | SosString | ApcString | PmString | Ground

  /** What the performer is asked to do. */
  datatype Action =
    | Print(c: nat)
    | Execute(byte: nat)
    | Hook(params: seq<seq<Value>>, intermediates: seq<Byte>, ignoring: bool, final: Byte)
    | Put(byte: nat)
    | Unhook
    | OscDispatch(fields: seq<seq<Byte>>, bell: bool)
    | CsiDispatch(params: seq<seq<Value>>, intermediates: seq<Byte>, ignoring: bool, final: Byte)
    | EscDispatch(intermediates: seq<Byte>, ignoring: bool, final: Byte)
    | SosStart | SosPut(byte: nat) | SosEnd
    | PmStart | PmPut(byte: nat) | PmEnd
    | ApcStart | ApcPut(byte: nat) | ApcEnd

  /** The parser's fields, as far as any of them is still meaningful. */
  datatype Core = Core(state: State, intermediates: seq<Byte>, ignoring: bool, groups: Groups, param: Value,
                       oscRaw: seq<Byte>, oscParams: seq<(nat, nat)>, pending: seq<Byte>)

  datatype Out = Out(core: Core, actions: seq<Action>)

  function Init(): Core { Core(Ground, [], false, NO_GROUPS, 0, [], [], []) }

  // ---- actions on the parameters ----

  function Reset(c: Core): Core { c.(intermediates := [], ignoring := false, groups := NO_GROUPS, param := 0) }

  function Collect(c: Core, b: Byte): Core {
    if |c.intermediates| == MAX_INTERMEDIATES then c.(ignoring := true) else c.(intermediates := c.intermediates + [b])
  }

  function EndSubparam(c: Core): Core {
    if c.groups.Full() then c.(ignoring := true) else c.(groups := c.groups.Extend(c.param), param := 0)
  }

  function EndParam(c: Core): Core {
    if c.groups.Full() then c.(ignoring := true) else c.(groups := c.groups.Push(c.param), param := 0)
  }

  function EndParams(c: Core): Core {
    if c.groups.Full() then c.(ignoring := true) else c.(groups := c.groups.Push(c.param))
  }

  function Saturate(v: nat): Value { if v > U16_MAX then U16_MAX else v }

  function Digit(c: Core, b: Byte): Core
    requires 0x30 <= b <= 0x39
  {
    if c.groups.Full() then c.(ignoring := true) else c.(param := Saturate(Saturate(c.param * 10) + (b - 0x30)))
  }

  /** A digit, or the end of a subparameter or parameter. */
  function Parameter(c: Core, b: Byte): Core
    requires 0x30 <= b <= 0x3B
  {
    if b <= 0x39 then Digit(c, b) else if b == 0x3A then EndSubparam(c) else EndParam(c)
  }

  // ---- operating system commands ----

  function LastEnd(c: Core): nat { if c.oscParams == [] then 0 else c.oscParams[|c.oscParams| - 1].1 }

  /** Ends a field; only the first 16 are recorded. */
  function EndField(c: Core): Core {
    if |c.oscParams| == MAX_OSC_PARAMS then c else c.(oscParams := c.oscParams + [(LastEnd(c), |c.oscRaw|)])
  }

  function Slice(raw: seq<Byte>, p: (nat, nat)): seq<Byte> { if p.0 <= p.1 <= |raw| then raw[p.0..p.1] else [] }

  function Fields(raw: seq<Byte>, params: seq<(nat, nat)>): seq<seq<Byte>> {
    if params == [] then [] else [Slice(raw, params[0])] + Fields(raw, params[1..])
  }

  function ClearOsc(c: Core): Core { c.(oscRaw := [], oscParams := []) }

  function OscEnd(c: Core, b: Byte): Out {
    Out(ClearOsc(c), [OscDispatch(Fields(c.oscRaw, EndField(c).oscParams), b == 0x07)])
  }

  // ---- one byte outside Ground ----

  predicate Control(b: Byte) { b <= 0x17 || b == 0x19 || 0x1C <= b <= 0x1F }

  /** CAN and SUB. */
  predicate Cancels(b: Byte) { b == 0x18 || b == 0x1A }

  function Goto(c: Core, state: State): Core { c.(state := state) }

  function Anywhere(c: Core, b: Byte): Out {
    if Cancels(b) then Out(Goto(c, Ground), [Execute(b)])
    else if b == ESC then Out(Goto(Reset(c), Escape), [])
    else Out(c, [])
  }

  function EscapeStep(c: Core, b: Byte): Out {
    if Control(b) then Out(c, [Execute(b)])
    else if Cancels(b) then Out(Goto(c, Ground), [Execute(b)])
    else if b < 0x20 || b > 0x7E then Out(c, [])
    else if b <= 0x2F then Out(Goto(Collect(c, b), EscapeIntermediate), [])
    else if b == 0x50 then Out(Goto(Reset(c), DcsEntry), [])
    else if b == 0x58 then Out(Goto(c, SosString), [SosStart])
    else if b == 0x5B then Out(Goto(Reset(c), CsiEntry), [])
    else if b == 0x5D then Out(Goto(ClearOsc(c), OscString), [])
    else if b == 0x5E then Out(Goto(c, PmString), [PmStart])
    else if b == 0x5F then Out(Goto(c, ApcString), [ApcStart])
    else EscEnd(c, b)
  }

  function EscEnd(c: Core, b: Byte): Out { Out(Goto(c, Ground), [EscDispatch(c.intermediates, c.ignoring, b)]) }

  function EscapeIntermediateStep(c: Core, b: Byte): Out {
    if Control(b) then Out(c, [Execute(b)])
    else if 0x20 <= b <= 0x2F then Out(Collect(c, b), [])
    else if 0x30 <= b <= 0x7E then EscEnd(c, b)
    else Anywhere(c, b)
  }

  /** The states of a control sequence and of the head of a device control string differ in what
      they do with controls and with the final byte. */
  datatype Family = Family(entry: State, param: State, intermediate: State, ignore: State)

  const CSI := Family(CsiEntry, CsiParam, CsiIntermediate, CsiIgnore)
  const DCS := Family(DcsEntry, DcsParam, DcsIntermediate, DcsIgnore)

  /** A byte 0x20..0x3F in one of the first three states of a family. */
  function HeaderByte(f: Family, c: Core, b: Byte): Core
    requires 0x20 <= b <= 0x3F
  {
    if b <= 0x2F then Goto(Collect(c, b), f.intermediate)
    else if c.state == f.intermediate then Goto(c, f.ignore)
    else if b <= 0x3B then Goto(Parameter(c, b), f.param)
    else if c.state == f.entry then Goto(Collect(c, b), f.param)
    else Goto(c, f.ignore)
  }

  function CsiStep(c: Core, b: Byte): Out {
    if Control(b) then Out(c, [Execute(b)])
    else if b < 0x20 || b > 0x7E then Anywhere(c, b)
    else if c.state == CsiIgnore then Out(if b <= 0x3F then c else Goto(c, Ground), [])
    else if b <= 0x3F then Out(HeaderByte(CSI, c, b), [])
    else
      var d := EndParams(c);
      Out(Goto(d, Ground), [CsiDispatch(d.groups.All(), d.intermediates, d.ignoring, b)])
  }

  function DcsStep(c: Core, b: Byte): Out {
    if b < 0x20 || b > 0x7E || c.state == DcsIgnore then Anywhere(c, b)
    else if b <= 0x3F then Out(HeaderByte(DCS, c, b), [])
    else
      var d := EndParams(c);
      Out(Goto(d, DcsPassthrough), [Hook(d.groups.All(), d.intermediates, d.ignoring, b)])
  }

  function PassthroughStep(c: Core, b: Byte): Out {
    if Cancels(b) then Out(Goto(c, Ground), [Unhook, Execute(b)])
    else if b == ESC then Out(Goto(Reset(c), Escape), [Unhook])
    else if b <= 0x7E then Out(c, [Put(b)])
    else if b == 0x9C then Out(Goto(c, Ground), [Unhook])
    else Out(c, [])
  }

  function OscStep(c: Core, b: Byte): Out {
    if b == 0x07 then Out(Goto(OscEnd(c, b).core, Ground), OscEnd(c, b).actions)
    else if Cancels(b) then Out(Goto(OscEnd(c, b).core, Ground), OscEnd(c, b).actions + [Execute(b)])
    else if b == ESC then Out(Goto(Reset(OscEnd(c, b).core), Escape), OscEnd(c, b).actions)
    else if b < 0x20 then Out(c, [])
    else if b == 0x3B then Out(EndField(c), [])
    else Out(c.(oscRaw := c.oscRaw + [b]), [])
  }

  function ApcStep(c: Core, b: Byte): Out {
    if b == 0x07 then Out(Goto(ClearOsc(c), Ground), [ApcEnd])
    else if Cancels(b) then Out(Goto(ClearOsc(c), Ground), [ApcPut(b), ApcEnd, Execute(b)])
    else if b == ESC then Out(Goto(ClearOsc(c), Escape), [ApcEnd])
    else if b < 0x20 then Out(c, [])
    else
      var d := c.(oscRaw := c.oscRaw + [b]);
      Out(if b == 0x3B then EndField(d) else d, [ApcPut(b)])
  }

  /** SOS and PM strings. */
  function OpaqueStep(c: Core, b: Byte, put: Action, end: Action): Out {
    if b == 0x07 then Out(Goto(c, Ground), [end])
    else if Cancels(b) then Out(Goto(c, Ground), [end, Execute(b)])
    else if b == ESC then Out(Goto(c, Escape), [end])
    else if b < 0x20 then Out(c, [])
    else Out(c, [put])
  }

  function Step(c: Core, b: Byte): (out: Out)
    requires c.state != Ground
    ensures out.core.pending == c.pending
  {
    match c.state
    case CsiEntry => CsiStep(c, b)
    case CsiIgnore => CsiStep(c, b)
    case CsiIntermediate => CsiStep(c, b)
    case CsiParam => CsiStep(c, b)
    case DcsEntry => DcsStep(c, b)
    case DcsIgnore => DcsStep(c, b)
    case DcsIntermediate => DcsStep(c, b)
    case DcsParam => DcsStep(c, b)
    case DcsPassthrough => PassthroughStep(c, b)
    case Escape => EscapeStep(c, b)
    case EscapeIntermediate => EscapeIntermediateStep(c, b)
    case OscString => OscStep(c, b)
    case SosString => OpaqueStep(c, b, SosPut(b), SosEnd)
    case ApcString => ApcStep(c, b)
    case PmString => OpaqueStep(c, b, PmPut(b), PmEnd)
  }

  // ---- a whole input ----

  function Show(c: nat): Action { if c <= 0x1F || 0x80 <= c <= 0x9F then Execute(c) else Print(c) }

  /** A broken sequence of `len` bytes: a stray byte 0x80..0x9F is a C1 control. */
  function Broken(first: Byte, len: nat): Action {
    if len == 1 && first <= 0x9F then Execute(first) else Print(REPLACEMENT)
  }

  function Then(actions: seq<Action>, out: Out): Out { Out(out.core, actions + out.actions) }

  function Run(c: Core, s: seq<Byte>): Out
    requires c.pending == []
    decreases |s|
  {
    if s == [] then Out(c, [])
    else if c.state != Ground then
      var o := Step(c, s[0]);
      Then(o.actions, Run(o.core, s[1..]))
    else if s[0] == ESC then Run(Goto(Reset(c), Escape), s[1..])
    else
      match Decode(s)
      case Char(ch, len) => Then([Show(ch)], Run(c, s[len..]))
      case Invalid(len) => Then([Broken(s[0], len)], Run(c, s[len..]))
      case Incomplete => Out(c.(pending := s), [])
  }

  /** Pending bytes are the start of a character, and the parser is in Ground. */
  predicate PendingOk(c: Core) { c.pending != [] ==> c.state == Ground && Decode(c.pending).Incomplete? }

  lemma {:induction false} RunPendingOk(c: Core, s: seq<Byte>)
    requires c.pending == []
    ensures PendingOk(Run(c, s).core)
    decreases |s|
  {
    if s == [] {
    } else if c.state != Ground {
      RunPendingOk(Step(c, s[0]).core, s[1..]);
    } else if s[0] == ESC {
      RunPendingOk(Goto(Reset(c), Escape), s[1..]);
    } else {
      match Decode(s)
      case Char(_, len) => RunPendingOk(c, s[len..]);
      case Invalid(len) => RunPendingOk(c, s[len..]);
      case Incomplete =>
    }
  }

  // ---- the parser's way of resuming a character ----

  /** The length of the longest prefix that is valid UTF-8. */
  function ValidUpTo(s: seq<Byte>): (n: nat)
    ensures n <= |s|
    decreases |s|
  {
    if s == [] then 0
    else match Decode(s) case Char(_, len) => len + ValidUpTo(s[len..]) case _ => 0
  }

  datatype Resumed = Resumed(core: Core, actions: seq<Action>, consumed: int)

  /** The pending bytes and up to four in all. */
  function Buffer(c: Core, s: seq<Byte>): seq<Byte>
    requires |c.pending| <= 4
  {
    c.pending + s[..Min(|s|, 4 - |c.pending|)]
  }

  /** `advance_partial_utf8`: a whole valid buffer consumes its first character, a buffer that is
      valid in part consumes that part. */
  function Resume(c: Core, s: seq<Byte>): Resumed
    requires c.pending != [] && PendingOk(c)
  {
    var buffer := Buffer(c, s);
    var before := |c.pending|;
    var valid := ValidUpTo(buffer);
    match Decode(buffer)
    case Char(ch, len) => Resumed(c.(pending := []), [Print(ch)], (if valid == |buffer| then len else valid) - before)
    case Invalid(len) => Resumed(c.(pending := []), [Print(REPLACEMENT)], len - before)
    case Incomplete => Resumed(c.(pending := buffer), [], |buffer| - before)
  }

  /** Bytes consumed are never fewer than none, and all are consumed while a character is still
      pending. */
  lemma ResumeConsumes(c: Core, s: seq<Byte>)
    requires c.pending != [] && PendingOk(c)
    ensures 0 <= Resume(c, s).consumed <= |s| && PendingOk(Resume(c, s).core)
    ensures Resume(c, s).core.pending != [] ==> Resume(c, s).consumed == |s| && |Resume(c, s).core.pending| <= 3
  {
    var buffer := Buffer(c, s);
    assert forall i :: 0 <= i < |c.pending| ==> buffer[i] == c.pending[i];
  }

  /** `advance` on a parser that may hold pending bytes. */
  function Advance(c: Core, s: seq<Byte>): Out
    requires PendingOk(c)
  {
    if c.pending == [] then Run(c, s)
    else
      ResumeConsumes(c, s);
      var r := Resume(c, s);
      if r.core.pending != [] then Out(r.core, r.actions) else Then(r.actions, Run(r.core, s[r.consumed..]))
  }
}
