/**
 The tuple helpers of include/orizzonte/utilities/tuple.hpp, over sequences:
 a tuple is a `seq<Val>`, an argument pack is one such sequence.

 - `for_tuple(f, t)` calls `f` on each element of `t`, left to right, and
   discards what the calls return. A call of `f` is modelled as a step from
   a state (whatever `f` can observe or change) to a new state plus a result.
 - `multi_apply(f, t1, ..., tn)` calls `f` once on the concatenation of the
   packs (`std::tuple_cat`).
 */
module TupleUtils {
  import opened Values

  // ---------------------------------------------------------------------
  // for_tuple

  /** The state after calling `f` on each element of `t` in order, starting
      from `s`; the calls' results are dropped. */
  function CallEach<S, R>(f: (S, Val) -> (S, R), s: S, t: seq<Val>): S
    decreases |t|
  {
    if t == [] then s else CallEach(f, f(s, t[0]).0, t[1..])
  }

  /** `for_tuple(f, t)`: the comma fold `(f(x0), f(x1), ...)` evaluated left to
      right. It returns nothing but the state the calls leave behind. */
  method ForTuple<S, R>(f: (S, Val) -> (S, R), s0: S, t: seq<Val>) returns (s: S)
    ensures s == CallEach(f, s0, t)
    ensures t == [] ==> s == s0
  {
    s := s0;
    var i := 0;
    while i < |t|
      invariant 0 <= i <= |t|
      invariant CallEach(f, s, t[i..]) == CallEach(f, s0, t)
    {
      assert t[i..][1..] == t[i + 1..];
      var (next, _) := f(s, t[i]);
      s := next;
      i := i + 1;
    }
    assert t[i..] == [];
  }

  /** Calling each element of `t1 + t2` is calling each of `t1` and then each
      of `t2`: the calls happen in element order. */
  lemma {:induction false} CallEachAppend<S, R>(f: (S, Val) -> (S, R), s: S, t1: seq<Val>, t2: seq<Val>)
    ensures CallEach(f, s, t1 + t2) == CallEach(f, CallEach(f, s, t1), t2)
    decreases |t1|
  {
    if t1 == [] {
      assert t1 + t2 == t2;
    } else {
      assert (t1 + t2)[1..] == t1[1..] + t2;
      CallEachAppend(f, f(s, t1[0]).0, t1[1..], t2);
    }
  }

  /** A callable that records the element it is called on. */
  function Record(log: seq<Val>, v: Val): (seq<Val>, bool)
  {
    (log + [v], true)
  }

  /** A recording callable sees every element exactly once, in order, and is
      not called at all on an empty tuple. */
  lemma {:induction false} CallEachRecordsElements(log: seq<Val>, t: seq<Val>)
    ensures CallEach(Record, log, t) == log + t
    decreases |t|
  {
    if t != [] {
      CallEachRecordsElements(log + [t[0]], t[1..]);
      assert log + [t[0]] + t[1..] == log + t;
    }
  }

  /** What the calls return is discarded: two callables with the same effect
      on the state give the same outcome whatever they return. */
  lemma {:induction false} CallEachDiscardsResults<S, R1, R2>(
    f: (S, Val) -> (S, R1), g: (S, Val) -> (S, R2), s: S, t: seq<Val>)
    requires forall s', v :: f(s', v).0 == g(s', v).0
    ensures CallEach(f, s, t) == CallEach(g, s, t)
    decreases |t|
  {
    if t != [] {
      CallEachDiscardsResults(f, g, f(s, t[0]).0, t[1..]);
    }
  }

  // ---------------------------------------------------------------------
  // multi_apply

  /** The concatenation of the packs, in order. */
  function Flatten(packs: seq<seq<Val>>): seq<Val>
  {
    if packs == [] then [] else packs[0] + Flatten(packs[1..])
  }

  /** Where pack `i` starts in the concatenation: the total length of the
      packs before it. */
  function Offset(packs: seq<seq<Val>>, i: int): nat
    requires 0 <= i <= |packs|
    decreases i
  {
    if i == 0 then 0 else Offset(packs, i - 1) + |packs[i - 1]|
  }

  lemma {:induction false} FlattenAppend(p1: seq<seq<Val>>, p2: seq<seq<Val>>)
    ensures Flatten(p1 + p2) == Flatten(p1) + Flatten(p2)
    decreases |p1|
  {
    if p1 == [] {
      assert p1 + p2 == p2;
    } else {
      assert (p1 + p2)[1..] == p1[1..] + p2;
      FlattenAppend(p1[1..], p2);
    }
  }

  lemma FlattenSingle(t: seq<Val>)
    ensures Flatten([t]) == t
  {
    assert [t][1..] == [];
  }

  /** The packs before pack `i` concatenate to `Offset(packs, i)` values. */
  lemma {:induction false} OffsetIsPrefixLength(packs: seq<seq<Val>>, i: int)
    requires 0 <= i <= |packs|
    ensures |Flatten(packs[..i])| == Offset(packs, i)
    decreases i
  {
    if i == 0 {
      assert packs[..i] == [];
    } else {
      OffsetIsPrefixLength(packs, i - 1);
      assert packs[..i] == packs[..i - 1] + [packs[i - 1]];
      FlattenAppend(packs[..i - 1], [packs[i - 1]]);
      FlattenSingle(packs[i - 1]);
    }
  }

  /** In the concatenation, element `j` of pack `i` sits at
      `Offset(packs, i) + j`. */
  lemma FlattenAt(packs: seq<seq<Val>>, i: int, j: int)
    requires 0 <= i < |packs| && 0 <= j < |packs[i]|
    ensures Offset(packs, i) + j < |Flatten(packs)|
    ensures Flatten(packs)[Offset(packs, i) + j] == packs[i][j]
  {
    assert packs == packs[..i] + packs[i..];
    FlattenAppend(packs[..i], packs[i..]);
    assert packs[i..][1..] == packs[i + 1..];
    OffsetIsPrefixLength(packs, i);
    var front, back := Flatten(packs[..i]), Flatten(packs[i + 1..]);
    assert Flatten(packs) == front + (packs[i] + back);
  }

  /** Element `j` of pack `i` sits at `Offset(packs, i) + j` of `args`. */
  predicate PlacedAt(args: seq<Val>, packs: seq<seq<Val>>, i: int, j: int)
    requires 0 <= i < |packs| && 0 <= j < |packs[i]|
  {
    Offset(packs, i) + j < |args| && args[Offset(packs, i) + j] == packs[i][j]
  }

  /** Every position before `Offset(packs, i)` lies inside one of the first
      `i` packs. */
  lemma {:induction false} FindPack(packs: seq<seq<Val>>, p: int, i: int) returns (k: int, j: int)
    requires 0 <= i <= |packs|
    requires 0 <= p < Offset(packs, i)
    ensures 0 <= k < i && 0 <= j < |packs[k]|
    ensures Offset(packs, k) + j == p
    decreases i
  {
    if p >= Offset(packs, i - 1) {
      k, j := i - 1, p - Offset(packs, i - 1);
    } else {
      k, j := FindPack(packs, p, i - 1);
    }
  }

  /** The placement of every element together with the total length leaves
      only one candidate: the concatenation. */
  lemma PlacementDetermines(args: seq<Val>, packs: seq<seq<Val>>)
    requires |args| == Offset(packs, |packs|)
    requires forall i, j :: 0 <= i < |packs| && 0 <= j < |packs[i]| ==> PlacedAt(args, packs, i, j)
    ensures args == Flatten(packs)
  {
    assert packs[..|packs|] == packs;
    OffsetIsPrefixLength(packs, |packs|);
    forall p | 0 <= p < |args|
      ensures args[p] == Flatten(packs)[p]
    {
      var k, j := FindPack(packs, p, |packs|);
      assert PlacedAt(args, packs, k, j);
      FlattenAt(packs, k, j);
    }
  }

  /** `std::tuple_cat(t1, ..., tn)`: element `j` of pack `i` lands at position
      `Offset(packs, i) + j`, and nothing else is added. */
  method TupleCat(packs: seq<seq<Val>>) returns (args: seq<Val>)
    ensures args == Flatten(packs)
    ensures |args| == Offset(packs, |packs|)
    ensures forall i, j :: 0 <= i < |packs| && 0 <= j < |packs[i]| ==> PlacedAt(args, packs, i, j)
  {
    args := [];
    var k := 0;
    while k < |packs|
      invariant 0 <= k <= |packs|
      invariant args == Flatten(packs[..k])
    {
      FlattenAppend(packs[..k], [packs[k]]);
      FlattenSingle(packs[k]);
      assert packs[..k + 1] == packs[..k] + [packs[k]];
      args := args + packs[k];
      k := k + 1;
    }
    assert packs[..k] == packs;
    assert args == Flatten(packs);
    OffsetIsPrefixLength(packs, |packs|);
    forall i, j | 0 <= i < |packs| && 0 <= j < |packs[i]|
      ensures PlacedAt(args, packs, i, j)
    {
      FlattenAt(packs, i, j);
    }
  }

  /** `multi_apply(f, t1, ..., tn)`: one call of `f` on the concatenated packs,
      returning exactly what that call returns. As for `for_tuple`, a call
      of `f` is a step from a state to a new state plus a result, so the
      final state shows that `f` ran exactly once: a second call would step
      the state again. */
  method MultiApply<S, R>(f: (S, seq<Val>) -> (S, R), s0: S, packs: seq<seq<Val>>) returns (s: S, r: R)
    ensures (s, r) == f(s0, Flatten(packs))
    ensures |packs| == 1 ==> (s, r) == f(s0, packs[0])
    ensures packs == [] ==> (s, r) == f(s0, [])
  {
    var args := TupleCat(packs);
    if |packs| == 1 {
      FlattenSingle(packs[0]);
      assert packs == [packs[0]];
    }
    s, r := f(s0, args).0, f(s0, args).1;
  }

  /** A callable that counts its calls and returns the arguments it got. */
  function Tally(calls: nat, args: seq<Val>): (nat, seq<Val>)
  {
    (calls + 1, args)
  }

  /** `multi_apply` with a counting callable: `f` is called exactly once,
      on exactly the concatenated packs, even when there are no packs. */
  method MultiApplyCallsOnce(packs: seq<seq<Val>>) returns (calls: nat, seen: seq<Val>)
    ensures calls == 1
    ensures seen == Flatten(packs)
  {
    calls, seen := MultiApply(Tally, 0, packs);
  }

  /** How arguments are split into packs does not matter, only their order:
      merging two adjacent packs gives `f` the same arguments. */
  lemma MultiApplyRegroup(before: seq<seq<Val>>, t1: seq<Val>, t2: seq<Val>, after: seq<seq<Val>>)
    ensures Flatten(before + [t1, t2] + after) == Flatten(before + [t1 + t2] + after)
  {
    FlattenAppend(before + [t1, t2], after);
    FlattenAppend(before, [t1, t2]);
    FlattenAppend(before + [t1 + t2], after);
    FlattenAppend(before, [t1 + t2]);
    FlattenAppend([t1], [t2]);
    assert [t1, t2] == [t1] + [t2];
    FlattenSingle(t1);
    FlattenSingle(t2);
    FlattenSingle(t1 + t2);
  }
}
