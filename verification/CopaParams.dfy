/** The fixed-size parameter list of the terminal parser: two arrays and two counters that stand
    for a list of parameters, each a list of subparameters. */
module CopaParams {
  import opened Common

  const MAX_PARAMS: nat := 32
  const U16_MAX: nat := 65535

  type Value = v: nat | v <= 65535

  /** The finished parameters and the subparameters collected for the next one. */
  datatype Groups = Groups(done: seq<seq<Value>>, current: seq<Value>)
  {
    /** What an iteration over the list yields. */
    function All(): seq<seq<Value>> { if current == [] then done else done + [current] }
    function Total(): nat { TotalOf(done) + |current| }
    predicate Full() { Total() == MAX_PARAMS }
    function Push(item: Value): Groups { Groups(done + [current + [item]], []) }
    function Extend(item: Value): Groups { Groups(done, current + [item]) }
  }

  const NO_GROUPS: Groups := Groups([], [])

  function TotalOf(groups: seq<seq<Value>>): nat {
    if groups == [] then 0 else |groups[0]| + TotalOf(groups[1..])
  }

  lemma {:induction false} TotalOfAppend(a: seq<seq<Value>>, b: seq<seq<Value>>)
    ensures TotalOf(a + b) == TotalOf(a) + TotalOf(b)
  {
    if a == [] {
      assert a + b == b;
    } else {
      assert (a + b)[1..] == a[1..] + b;
      TotalOfAppend(a[1..], b);
    }
  }

  /** From index `at` on, the arrays spell `groups`: the length of each at its first place, then
      its values. */
  ghost predicate Spells(subparams: seq<nat>, params: seq<Value>, at: nat, groups: seq<seq<Value>>)
    decreases |groups|
  {
    groups == [] ||
    (&& groups[0] != []
     && at + |groups[0]| <= |params| && at < |subparams|
     && subparams[at] == |groups[0]|
     && params[at..at + |groups[0]|] == groups[0]
     && Spells(subparams, params, at + |groups[0]|, groups[1..]))
  }

  /** Writing at or behind the end of what is spelled changes nothing of it. */
  lemma {:induction false} SpellsFrame(subparams: seq<nat>, params: seq<Value>, subparams': seq<nat>,
                                       params': seq<Value>, at: nat, groups: seq<seq<Value>>, end: nat)
    requires Spells(subparams, params, at, groups) && at + TotalOf(groups) <= end
    requires end <= |params| == |params'| && |subparams| == |subparams'|
    requires forall i :: 0 <= i < end ==> params'[i] == params[i]
    requires forall i :: 0 <= i < end && i < |subparams| ==> subparams'[i] == subparams[i]
    ensures Spells(subparams', params', at, groups)
    decreases |groups|
  {
    if groups != [] {
      assert params'[at..at + |groups[0]|] == params[at..at + |groups[0]|];
      SpellsFrame(subparams, params, subparams', params', at + |groups[0]|, groups[1..], end);
    }
  }

  /** A list spelled up to `end` and one more group there. */
  lemma {:induction false} SpellsAppend(subparams: seq<nat>, params: seq<Value>, at: nat, groups: seq<seq<Value>>,
                                        last: seq<Value>)
    requires Spells(subparams, params, at, groups)
    requires Spells(subparams, params, at + TotalOf(groups), [last])
    ensures Spells(subparams, params, at, groups + [last])
    decreases |groups|
  {
    if groups == [] {
      assert groups + [last] == [last];
    } else {
      assert (groups + [last])[1..] == groups[1..] + [last];
      SpellsAppend(subparams, params, at + |groups[0]|, groups[1..], last);
    }
  }

  /** The values of the current group with one more behind them. */
  lemma SpellsItem(s: seq<nat>, p: seq<Value>, groups: Groups, item: Value)
    requires |s| == |p| == MAX_PARAMS && groups.Total() < MAX_PARAMS && Spells(s, p, 0, groups.done)
    requires groups.current != [] ==> Spells(s, p, TotalOf(groups.done), [groups.current])
    ensures var start, n := TotalOf(groups.done), |groups.current|;
            var s', p' := s[start := n + 1], p[start + n := item];
            Spells(s', p', 0, groups.done) && Spells(s', p', start, [groups.current + [item]])
  {
    var start, n := TotalOf(groups.done), |groups.current|;
    var s', p' := s[start := n + 1], p[start + n := item];
    SpellsFrame(s, p, s', p', 0, groups.done, start);
    assert groups.current != [] ==> p[start..start + n] == groups.current;
    assert p'[start..start + n + 1] == p[start..start + n] + [item];
    assert [groups.current + [item]][1..] == [];
  }

  class Params {
    const subparams: array<nat>
    const params: array<Value>
    var currentSubparams: nat
    var len: nat
    ghost var groups: Groups

    ghost predicate Valid()
      reads this, subparams, params
    {
      && subparams.Length == params.Length == MAX_PARAMS
      && groups.Total() == len <= MAX_PARAMS
      && currentSubparams == |groups.current|
      && Spells(subparams[..], params[..], 0, groups.done)
      && (groups.current != [] ==> Spells(subparams[..], params[..], TotalOf(groups.done), [groups.current]))
    }

    constructor ()
      ensures Valid() && groups == NO_GROUPS && fresh(subparams) && fresh(params)
    {
      subparams := new nat[MAX_PARAMS](_ => 0);
      params := new Value[MAX_PARAMS](_ => 0);
      currentSubparams, len, groups := 0, 0, NO_GROUPS;
    }

    predicate IsFull()
      requires Valid()
      reads this, subparams, params
      ensures IsFull() == groups.Full()
    {
      len == MAX_PARAMS
    }

    method Clear()
      requires Valid()
      modifies this
      ensures Valid() && groups == NO_GROUPS
    {
      currentSubparams, len, groups := 0, 0, NO_GROUPS;
    }

    /** Ends the current parameter with `item`. */
    method Push(item: Value)
      requires Valid() && !IsFull()
      modifies this, subparams, params
      ensures Valid() && groups == old(groups).Push(item)
    {
      Write(item);
      SpellsAppend(subparams[..], params[..], 0, groups.done, groups.current + [item]);
      TotalOfAppend(groups.done, [groups.current + [item]]);
      currentSubparams, len := 0, len + 1;
      groups := groups.Push(item);
    }

    /** Adds `item` to the current parameter. */
    method Extend(item: Value)
      requires Valid() && !IsFull()
      modifies this, subparams, params
      ensures Valid() && groups == old(groups).Extend(item)
    {
      Write(item);
      currentSubparams, len := currentSubparams + 1, len + 1;
      groups := groups.Extend(item);
    }

    method Write(item: Value)
      requires Valid() && !IsFull()
      modifies subparams, params
      ensures Spells(subparams[..], params[..], 0, groups.done)
      ensures Spells(subparams[..], params[..], TotalOf(groups.done), [groups.current + [item]])
    {
      hide Spells, TotalOf;
      ghost var s, p := subparams[..], params[..];
      subparams[len - currentSubparams] := currentSubparams + 1;
      params[len] := item;
      SpellsItem(s, p, groups, item);
      ghost var start, size: nat := TotalOf(groups.done), currentSubparams + 1;
      assert subparams[..] == s[start := size] && params[..] == p[len := item];
    }

    method Iter() returns (iter: ParamsIter)
      requires Valid()
      ensures fresh(iter) && iter.params == this && iter.index == 0
    {
      iter := new ParamsIter(this);
    }
  }

  class ParamsIter {
    const params: Params
    var index: nat

    constructor (params: Params)
      ensures this.params == params && index == 0
    {
      this.params, index := params, 0;
    }

    /** What is still to come, `rest`, starts with the group returned; nothing is left at the end. */
    method Next(ghost rest: seq<seq<Value>>) returns (group: Option<seq<Value>>)
      requires params.Valid() && index + TotalOf(rest) == params.len
      requires Spells(params.subparams[..], params.params[..], index, rest)
      modifies this
      ensures group == if rest == [] then None else Some(rest[0])
      ensures rest != [] ==> index + TotalOf(rest[1..]) == params.len
                             && Spells(params.subparams[..], params.params[..], index, rest[1..])
    {
      if index >= params.len {
        return None;
      }
      var count := params.subparams[index];
      var start := index;
      index := index + count;
      group := Some(params.params[start..start + count]);
    }
  }

  /** At its start an iteration has the whole list before it. */
  lemma AllSpelled(p: Params)
    requires p.Valid()
    ensures Spells(p.subparams[..], p.params[..], 0, p.groups.All()) && TotalOf(p.groups.All()) == p.len
  {
    if p.groups.current != [] {
      SpellsAppend(p.subparams[..], p.params[..], 0, p.groups.done, p.groups.current);
      TotalOfAppend(p.groups.done, [p.groups.current]);
    }
  }

  /** Iterating yields the parameters, whatever was pushed, extended and cleared before. */
  method Iterate(p: Params) returns (all: seq<seq<Value>>)
    requires p.Valid()
    ensures all == p.groups.All()
  {
    hide Spells, TotalOf, Params.Valid, Groups.All;
    AllSpelled(p);
    var iter := p.Iter();
    all := [];
    ghost var groups := p.groups.All();
    assert groups[0..] == groups;
    var group := iter.Next(groups);
    while group != None
      invariant p.Valid() && iter.params == p && fresh(iter)
      invariant |all| <= |groups| && all == groups[..|all|]
      invariant group == if |all| == |groups| then None else Some(groups[|all|])
      invariant |all| < |groups| ==> iter.index + TotalOf(groups[|all| + 1..]) == p.len
                                     && Spells(p.subparams[..], p.params[..], iter.index, groups[|all| + 1..])
      decreases |groups| - |all|
    {
      all := all + [group.value];
      assert |all| < |groups| ==> groups[|all|..][1..] == groups[|all| + 1..];
      group := iter.Next(groups[|all|..]);
    }
  }
}
