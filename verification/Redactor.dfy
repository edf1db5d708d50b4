/** The streaming secret redactor of the evaluation lab: an online leftmost-longest matcher
    over chunks that agrees with replacement on the whole input. */
module Redactor {
  import opened Common

  newtype byte = b: int | 0 <= b < 256

  const MARK: seq<byte> := [91, 82, 69, 68, 65, 67, 84, 69, 68, 93]  // "[REDACTED]"

  predicate NonEmpty(patterns: seq<seq<byte>>) { forall k :: 0 <= k < |patterns| ==> patterns[k] != [] }

  /** The length of the longest pattern that is a prefix of `s`, 0 if there is none. */
  function Longest(patterns: seq<seq<byte>>, s: seq<byte>): (n: nat)
    ensures n <= |s|
    ensures forall k :: 0 <= k < |patterns| && patterns[k] <= s ==> |patterns[k]| <= n
    ensures n > 0 ==> exists k :: 0 <= k < |patterns| && patterns[k] <= s && |patterns[k]| == n
  {
    if patterns == [] then 0
    else
      var rest := Longest(patterns[1..], s);
      assert forall k :: 1 <= k < |patterns| ==> patterns[k] == patterns[1..][k - 1];
      if patterns[0] <= s && |patterns[0]| > rest then |patterns[0]| else rest
  }

  /** The length of the longest pattern. */
  function MaxLength(patterns: seq<seq<byte>>): (n: nat)
    ensures forall k :: 0 <= k < |patterns| ==> |patterns[k]| <= n
  {
    if patterns == [] then 0
    else
      assert forall k :: 1 <= k < |patterns| ==> patterns[k] == patterns[1..][k - 1];
      if |patterns[0]| > MaxLength(patterns[1..]) then |patterns[0]| else MaxLength(patterns[1..])
  }

  /** Leftmost-longest replacement on a whole input. */
  function Redact(patterns: seq<seq<byte>>, s: seq<byte>): seq<byte>
    decreases |s|
  {
    if s == [] then []
    else if Longest(patterns, s) > 0 then MARK + Redact(patterns, s[Longest(patterns, s)..])
    else [s[0]] + Redact(patterns, s[1..])
  }

  /** Once as many bytes as the longest pattern are known, later input cannot change a match. */
  lemma LongestIsStable(patterns: seq<seq<byte>>, s: seq<byte>, rest: seq<byte>)
    requires MaxLength(patterns) <= |s|
    ensures Longest(patterns, s + rest) == Longest(patterns, s)
  {
    var n, m := Longest(patterns, s + rest), Longest(patterns, s);
    forall k | 0 <= k < |patterns| ensures patterns[k] <= s + rest <==> patterns[k] <= s {
      if patterns[k] <= s + rest { assert (s + rest)[..|patterns[k]|] == s[..|patterns[k]|]; }
      if patterns[k] <= s { assert (s + rest)[..|patterns[k]|] == s[..|patterns[k]|]; }
    }
  }

  /** A byte at which no match starts is copied. */
  lemma CopyByte(patterns: seq<seq<byte>>, s: seq<byte>, rest: seq<byte>)
    requires s != [] && Longest(patterns, s) == 0 && (rest == [] || MaxLength(patterns) <= |s|)
    ensures Redact(patterns, s + rest) == [s[0]] + Redact(patterns, s[1..] + rest)
  {
    if rest == [] { assert s + rest == s; } else { LongestIsStable(patterns, s, rest); }
    assert (s + rest)[1..] == s[1..] + rest;
  }

  /** A match at the front is replaced. */
  lemma ReplaceMatch(patterns: seq<seq<byte>>, s: seq<byte>, rest: seq<byte>)
    requires Longest(patterns, s) > 0 && (rest == [] || MaxLength(patterns) <= |s|)
    ensures Redact(patterns, s + rest) == MARK + Redact(patterns, s[Longest(patterns, s)..] + rest)
  {
    var n := Longest(patterns, s);
    if rest == [] { assert s + rest == s; } else { LongestIsStable(patterns, s, rest); }
    assert (s + rest)[n..] == s[n..] + rest;
  }

  /** What is emitted for `all` so far is `output`, and `held` is all that later output depends
      on, whatever comes next; at the end nothing comes next. */
  ghost predicate Emits(patterns: seq<seq<byte>>, all: seq<byte>, output: seq<byte>, held: seq<byte>, final: bool) {
    forall rest {:trigger Allowed(rest, final)} ::
      Allowed(rest, final) ==> Redact(patterns, all + rest) == output + Redact(patterns, held + rest)
  }

  predicate Allowed(rest: seq<byte>, final: bool) { !final || rest == [] }

  lemma {:induction false} Associative(a: seq<byte>, b: seq<byte>, c: seq<byte>)
    ensures (a + b) + c == a + (b + c)
  {
  }

  /** A byte is emitted as it is. */
  lemma EmitByte(patterns: seq<seq<byte>>, all: seq<byte>, output: seq<byte>, held: seq<byte>, final: bool)
    requires held != [] && Longest(patterns, held) == 0 && (!final ==> MaxLength(patterns) <= |held|)
    requires Emits(patterns, all, output, held, final)
    ensures Emits(patterns, all, output + [held[0]], held[1..], final)
  {
    forall rest | Allowed(rest, final)
      ensures Redact(patterns, all + rest) == output + [held[0]] + Redact(patterns, held[1..] + rest)
    {
      CopyByte(patterns, held, rest);
      Associative(output, [held[0]], Redact(patterns, held[1..] + rest));
    }
  }

  /** A match is emitted as the mark. */
  lemma EmitMark(patterns: seq<seq<byte>>, all: seq<byte>, output: seq<byte>, held: seq<byte>, final: bool)
    requires Longest(patterns, held) > 0 && (!final ==> MaxLength(patterns) <= |held|)
    requires Emits(patterns, all, output, held, final)
    ensures Emits(patterns, all, output + MARK, held[Longest(patterns, held)..], final)
  {
    var n := Longest(patterns, held);
    forall rest | Allowed(rest, final)
      ensures Redact(patterns, all + rest) == output + MARK + Redact(patterns, held[n..] + rest)
    {
      ReplaceMatch(patterns, held, rest);
      Associative(output, MARK, Redact(patterns, held[n..] + rest));
    }
  }

  /** Where no match starts in `position..upTo`, those bytes are emitted. */
  lemma {:induction false} EmitPlain(patterns: seq<seq<byte>>, s: seq<byte>, all: seq<byte>, output: seq<byte>,
                                     position: nat, upTo: nat, final: bool)
    requires position <= upTo <= |s|
    requires !final && position < upTo ==> upTo - 1 + MaxLength(patterns) <= |s|
    requires forall i :: position <= i < upTo ==> Longest(patterns, s[i..]) == 0
    requires Emits(patterns, all, output, s[position..], final)
    ensures Emits(patterns, all, output + s[position..upTo], s[upTo..], final)
    decreases upTo - position
  {
    if position == upTo {
      assert output + s[position..upTo] == output;
    } else {
      EmitByte(patterns, all, output, s[position..], final);
      assert s[position..][1..] == s[position + 1..];
      EmitPlain(patterns, s, all, output + [s[position]], position + 1, upTo, final);
      assert s[position..upTo] == [s[position]] + s[position + 1..upTo];
      Associative(output, [s[position]], s[position + 1..upTo]);
    }
  }

  /** The first index from `from` on at which `p` occurs, or -1. */
  method Find(s: seq<byte>, p: seq<byte>, from: nat) returns (at: int)
    requires from <= |s|
    ensures at == -1 || from <= at <= |s|
    ensures at >= 0 ==> p <= s[at..] && forall j :: from <= j < at ==> !(p <= s[j..])
    ensures at == -1 ==> forall j :: from <= j <= |s| ==> !(p <= s[j..])
  {
    for i := from to |s| + 1
      invariant forall j :: from <= j < i ==> !(p <= s[j..])
    {
      if p <= s[i..] {
        return i;
      }
    }
    return -1;
  }

  class StreamRedactor {
    var patterns: seq<seq<byte>>
    var tail: nat
    var pending: seq<byte>

    ghost predicate Valid() reads this {
      NonEmpty(patterns) && tail == (if patterns == [] then 0 else MaxLength(patterns) - 1)
    }

    constructor (secretPatterns: seq<seq<byte>>)
      requires NonEmpty(secretPatterns)
      ensures Valid() && patterns == secretPatterns && pending == []
    {
      var longest := 1;
      for k := 0 to |secretPatterns|
        invariant longest >= 1
        invariant k == 0 ==> longest == 1
        invariant k > 0 ==> longest == MaxLength(secretPatterns[..k])
      {
        MaxLengthGrows(secretPatterns, k);
        longest := if k == 0 || |secretPatterns[k]| > longest then |secretPatterns[k]| else longest;
      }
      assert secretPatterns[..|secretPatterns|] == secretPatterns;
      patterns := secretPatterns;
      tail := longest - 1;
      pending := [];
    }

    /** The leftmost match that starts in `position..boundary` of `s`, the longest of those. */
    method FirstMatch(s: seq<byte>, position: nat, boundary: nat) returns (start: nat, length: nat)
      requires Valid() && position < boundary <= |s|
      ensures length == 0 ==> forall i :: position <= i < boundary ==> Longest(patterns, s[i..]) == 0
      ensures length > 0 ==> position <= start < boundary && length == Longest(patterns, s[start..])
      ensures length > 0 ==> forall i :: position <= i < start ==> Longest(patterns, s[i..]) == 0
    {
      start, length := boundary, 0;
      for k := 0 to |patterns|
        invariant length == 0 ==> start == boundary
        invariant length > 0 ==> position <= start < boundary
        invariant length > 0 ==> exists j :: 0 <= j < k && patterns[j] <= s[start..] && |patterns[j]| == length
        invariant forall j, i :: 0 <= j < k && position <= i < start ==> !(patterns[j] <= s[i..])
        invariant forall j :: 0 <= j < k && length > 0 && patterns[j] <= s[start..] ==> |patterns[j]| <= length
      {
        var at := Find(s, patterns[k], position);
        if 0 <= at < boundary && (at < start || (at == start && |patterns[k]| > length)) {
          start, length := at, |patterns[k]|;
        }
      }
    }

    lemma TailCoversPatterns()
      requires Valid()
      ensures MaxLength(patterns) <= tail + 1
    {
    }

    /** What is emitted now and what will ever be emitted for the bytes held back is the
        replacement of everything received, whatever comes next; nothing is held back at the end
        and never more than the longest pattern less one byte before. */
    method Feed(data: seq<byte>, final: bool) returns (output: seq<byte>)
      requires Valid()
      modifies this`pending
      ensures Valid()
      ensures final ==> output == Redact(patterns, old(pending) + data) && pending == []
      ensures !final ==> |pending| <= tail && Emits(patterns, old(pending) + data, output, pending, false)
    {
      hide Emits, Redact, Longest, MaxLength;
      TailCoversPatterns();
      pending := pending + data;
      var boundary := if final then |pending| else if |pending| > tail then |pending| - tail else 0;
      var position := 0;
      output := [];
      EmitsNothing(patterns, pending, final);
      while position < boundary
        invariant position <= |pending| && pending == old(pending) + data
        invariant Emits(patterns, pending, output, pending[position..], final)
        decreases |pending| - position
      {
        var start, length := FirstMatch(pending, position, boundary);
        if length == 0 {
          EmitPlain(patterns, pending, pending, output, position, boundary, final);
          output := output + pending[position..boundary];
          position := boundary;
          break;
        }
        EmitPlain(patterns, pending, pending, output, position, start, final);
        EmitMark(patterns, pending, output + pending[position..start], pending[start..], final);
        assert pending[start..][length..] == pending[start + length..];
        output := output + pending[position..start] + MARK;
        position := start + length;
      }
      if final {
        EmitsAll(patterns, pending, output, pending[position..]);
      }
      pending := pending[position..];
    }
  }

  lemma EmitsNothing(patterns: seq<seq<byte>>, s: seq<byte>, final: bool)
    ensures Emits(patterns, s, [], s[0..], final)
  {
    assert s[0..] == s;
  }

  /** At the end, with nothing left, the output is the whole replacement. */
  lemma EmitsAll(patterns: seq<seq<byte>>, s: seq<byte>, output: seq<byte>, held: seq<byte>)
    requires Emits(patterns, s, output, held, true) && held == []
    ensures output == Redact(patterns, s)
  {
    assert Allowed([], true) && s + [] == s && held + [] == [];
  }

  lemma MaxLengthGrows(patterns: seq<seq<byte>>, k: nat)
    requires k < |patterns|
    ensures MaxLength(patterns[..k + 1]) ==
            if |patterns[k]| > MaxLength(patterns[..k]) then |patterns[k]| else MaxLength(patterns[..k])
  {
    if k == 0 {
      assert patterns[..1] == [patterns[0]] && patterns[..1][1..] == [];
    } else {
      assert patterns[..k + 1][1..] == patterns[1..][..k] && patterns[..k][1..] == patterns[1..][..k - 1];
      MaxLengthGrows(patterns[1..], k - 1);
    }
  }

  /** One more chunk: what was held back and the new bytes are what the next output is for. */
  lemma EmitsChain(patterns: seq<seq<byte>>, all: seq<byte>, output: seq<byte>, held: seq<byte>, data: seq<byte>,
                   more: seq<byte>, held': seq<byte>)
    requires Emits(patterns, all, output, held, false) && Emits(patterns, held + data, more, held', false)
    ensures Emits(patterns, all + data, output + more, held', false)
  {
    forall rest | Allowed(rest, false)
      ensures Redact(patterns, all + data + rest) == output + more + Redact(patterns, held' + rest)
    {
      assert Allowed(data + rest, false);
      Associative(all, data, rest);
      Associative(held, data, rest);
      Associative(output, more, Redact(patterns, held' + rest));
    }
  }

  /** What has been emitted is a prefix of the replacement of anything that may still follow. */
  lemma EmitsPrefix(patterns: seq<seq<byte>>, all: seq<byte>, output: seq<byte>, held: seq<byte>, rest: seq<byte>)
    requires Emits(patterns, all, output, held, false)
    ensures output <= Redact(patterns, all + rest)
  {
    assert Allowed(rest, false);
  }

  /** Streaming equals batch: for every chunking of the input, the outputs of `Feed` and of the
      final flush together are the replacement of the whole input. */
  method RedactChunks(patterns: seq<seq<byte>>, chunks: seq<seq<byte>>) returns (output: seq<byte>)
    requires NonEmpty(patterns)
    ensures output == Redact(patterns, Concat(chunks))
  {
    var redactor := new StreamRedactor(patterns);
    output := [];
    EmitsNothing(patterns, [], false);
    for k := 0 to |chunks|
      invariant redactor.Valid() && redactor.patterns == patterns
      invariant Emits(patterns, Concat(chunks[..k]), output, redactor.pending, false)
    {
      ghost var held := redactor.pending;
      var more := redactor.Feed(chunks[k], false);
      EmitsChain(patterns, Concat(chunks[..k]), output, held, chunks[k], more, redactor.pending);
      ConcatAppend(chunks[..k], chunks[k]);
      assert chunks[..k] + [chunks[k]] == chunks[..k + 1];
      output := output + more;
    }
    assert chunks[..|chunks|] == chunks;
    FlushCompletes(patterns, Concat(chunks), output, redactor.pending);
    var more := redactor.Feed([], true);
    output := output + more;
  }

  lemma FlushCompletes(patterns: seq<seq<byte>>, all: seq<byte>, output: seq<byte>, held: seq<byte>)
    requires Emits(patterns, all, output, held, false)
    ensures output + Redact(patterns, held + []) == Redact(patterns, all)
  {
    assert Allowed([], false) && all + [] == all;
  }

  /** Some of what was received may not have been fed: what was emitted is still a prefix. */
  lemma WrittenIsPrefix(patterns: seq<seq<byte>>, fed: seq<byte>, all: seq<byte>, emitted: seq<byte>, held: seq<byte>,
                        written: seq<byte>)
    requires Emits(patterns, fed, emitted, held, false) && fed <= all && written <= emitted
    ensures written <= Redact(patterns, all)
  {
    assert fed + all[|fed|..] == all;
    EmitsPrefix(patterns, fed, emitted, held, all[|fed|..]);
  }

  /** What fits behind `written`. */
  lemma FitsTheLimit(written: seq<byte>, more: seq<byte>, limit: nat)
    requires |written| <= limit
    ensures var all, out := written + more, written + more[..Min(limit - |written|, |more|)];
            out == all[..Min(limit, |all|)] && out <= all
  {
  }

  class Capture {
    const limit: nat
    var remaining: nat
    var outputRemaining: nat
    var written: seq<byte>
    var redactor: StreamRedactor
    ghost var fed: seq<byte>
    ghost var emitted: seq<byte>

    /** `all` is what the container has printed so far. */
    ghost predicate Valid(all: seq<byte>)
      reads this, redactor
    {
      && redactor.Valid()
      && Emits(redactor.patterns, fed, emitted, redactor.pending, false)
      && fed <= all && written <= emitted
      && remaining <= limit && outputRemaining <= limit && |written| == limit - outputRemaining
      && (outputRemaining > 0 ==> written == emitted && |fed| == limit - remaining)
      && (if remaining > 0 then |all| == limit - remaining else limit <= |all|)
    }

    predicate Limited() reads this { remaining == 0 || outputRemaining == 0 }

    constructor (patterns: seq<seq<byte>>, limit: nat)
      requires NonEmpty(patterns) && limit > 0
      ensures Valid([]) && redactor.patterns == patterns && fresh(redactor) && this.limit == limit
      ensures !Limited() && written == []
    {
      this.limit := limit;
      remaining, outputRemaining := limit, limit;
      written, fed, emitted := [], [], [];
      redactor := new StreamRedactor(patterns);
      new;
      EmitsNothing(patterns, [], false);
    }

    /** One chunk of the stream. */
    method Read(data: seq<byte>, ghost all: seq<byte>)
      requires Valid(all)
      modifies this`remaining, this`outputRemaining, this`written, this`fed, this`emitted, redactor`pending
      ensures Valid(all + data)
      ensures old(Limited()) ==> Limited()
      ensures old(written) <= written
    {
      var accepted := data[..Min(remaining, |data|)];
      remaining := remaining - |accepted|;
      assert accepted <= data;
      if outputRemaining > 0 {
        ghost var held := redactor.pending;
        var captured := redactor.Feed(accepted, false);
        EmitsChain(redactor.patterns, fed, emitted, held, accepted, captured, redactor.pending);
        written := written + captured[..Min(outputRemaining, |captured|)];
        outputRemaining := outputRemaining - Min(outputRemaining, |captured|);
        FedIsPrefix(fed, accepted, all, data);
        emitted, fed := emitted + captured, fed + accepted;
      }
    }

    /** The end of the stream: what is held back is written unless a limit was reached. */
    method End(ghost all: seq<byte>)
      requires Valid(all)
      modifies this`written, redactor`pending
      ensures |written| <= limit && written <= Redact(redactor.patterns, all)
      ensures !Limited() ==> written == Redact(redactor.patterns, all)[..Min(limit, |Redact(redactor.patterns, all)|)]
      ensures Limited() ==> |all| >= limit || |written| == limit
      ensures |all| >= limit ==> Limited()
    {
      hide Emits, Redact;
      WrittenIsPrefix(redactor.patterns, fed, all, emitted, redactor.pending, written);
      if remaining > 0 && outputRemaining > 0 {
        FlushCompletes(redactor.patterns, fed, emitted, redactor.pending);
        assert fed == all;
        var captured := redactor.Feed([], true);
        FitsTheLimit(written, captured, limit);
        written := written + captured[..Min(outputRemaining, |captured|)];
      }
    }
  }

  lemma FedIsPrefix(fed: seq<byte>, accepted: seq<byte>, all: seq<byte>, data: seq<byte>)
    requires fed <= all && accepted <= data && (|fed| == |all| || accepted == [])
    ensures fed + accepted <= all + data
  {
    if accepted == [] { assert fed + accepted == fed; } else { assert fed == all; }
  }

  /** The reader thread of a container, with `limit` bytes of input and of output at most. What
      reaches the file is always a prefix of the redaction of the whole stream, and all of it,
      cut at the limit, unless the limit was reported; it is reported only when one of the limits was
      reached, and surely when the stream is as long as that. */
  method CaptureStream(patterns: seq<seq<byte>>, chunks: seq<seq<byte>>, limit: nat)
    returns (written: seq<byte>, limited: bool)
    requires NonEmpty(patterns) && limit > 0
    ensures |written| <= limit && written <= Redact(patterns, Concat(chunks))
    ensures !limited ==> written == Redact(patterns, Concat(chunks))[..Min(limit, |Redact(patterns, Concat(chunks))|)]
    ensures |Concat(chunks)| >= limit ==> limited
    ensures limited ==> |Concat(chunks)| >= limit || |written| == limit
    ensures |Concat(chunks)| < limit && |Redact(patterns, Concat(chunks))| < limit ==>
              !limited && written == Redact(patterns, Concat(chunks))
  {
    assert Concat(chunks[..0]) == [];
    hide Redact, Concat, Capture.Valid;
    var capture := new Capture(patterns, limit);
    limited := false;
    for k := 0 to |chunks|
      invariant fresh(capture) && fresh(capture.redactor) && capture.limit == limit
      invariant capture.Valid(Concat(chunks[..k])) && capture.redactor.patterns == patterns
      invariant limited <==> capture.Limited()
    {
      capture.Read(chunks[k], Concat(chunks[..k]));
      if capture.remaining == 0 || capture.outputRemaining == 0 {
        limited := true;
      }
      ConcatAppend(chunks[..k], chunks[k]);
      assert chunks[..k] + [chunks[k]] == chunks[..k + 1];
    }
    assert chunks[..|chunks|] == chunks;
    capture.End(Concat(chunks));
    written := capture.written;
  }
}
