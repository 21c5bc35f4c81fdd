/** Sequence facts the fan-in needs: flattening blocks, picking blocks in an arrival order. */
module Seqs {

  /** Concatenation of all blocks, first to last (Go's repeated `append(list, block...)`). */
  function Flatten<T>(blocks: seq<seq<T>>): seq<T>
    decreases |blocks|
  {
    if |blocks| == 0 then [] else Flatten(blocks[..|blocks| - 1]) + blocks[|blocks| - 1]
  }

  /** The indices 0, 1, ..., n-1 in order. */
  function Range(n: nat): (r: seq<nat>)
    ensures |r| == n
    ensures forall i :: 0 <= i < n ==> r[i] == i
  {
    seq(n, i => i)
  }

  /** The blocks named by `order`, in the order named. */
  function Pick<T>(order: seq<nat>, blocks: seq<T>): (r: seq<T>)
    requires forall k :: 0 <= k < |order| ==> order[k] < |blocks|
    ensures |r| == |order|
    ensures forall k :: 0 <= k < |order| ==> r[k] == blocks[order[k]]
  {
    seq(|order|, k requires 0 <= k < |order| => blocks[order[k]])
  }

  /** `part` occurs in `whole` starting at position `off`. */
  predicate InfixAt<T(==)>(whole: seq<T>, part: seq<T>, off: int)
  {
    0 <= off && off + |part| <= |whole| && whole[off..off + |part|] == part
  }

  /** Every index below n occurs exactly once in Range(n), and nothing else does. */
  lemma {:induction false} RangeCount(n: nat, j: int)
    ensures multiset(Range(n))[j] == if 0 <= j < n then 1 else 0
  {
    if n > 0 {
      assert Range(n) == Range(n - 1) + [n - 1];
      RangeCount(n - 1, j);
    }
  }

  /** An order that is a permutation of Range(n) has length n and only indices below n. */
  lemma PermutationBounds(order: seq<nat>, n: nat)
    requires multiset(order) == multiset(Range(n))
    ensures |order| == n
    ensures forall k :: 0 <= k < |order| ==> order[k] < n
  {
    assert |order| == |multiset(order)| == |multiset(Range(n))| == n;
    forall k | 0 <= k < |order|
      ensures order[k] < n
    {
      assert order[k] in multiset(order);
      RangeCount(n, order[k]);
    }
  }

  lemma {:induction false} FlattenConcat<T>(a: seq<seq<T>>, b: seq<seq<T>>)
    ensures Flatten(a + b) == Flatten(a) + Flatten(b)
    decreases |b|
  {
    if |b| == 0 {
      assert a + b == a;
    } else {
      var b' := b[..|b| - 1];
      assert (a + b)[..|a + b| - 1] == a + b';
      FlattenConcat(a, b');
    }
  }

  /** Flattening [x] contributes x itself. */
  lemma FlattenSingle<T>(x: seq<T>)
    ensures Flatten([x]) == x
  {
    assert [x][..0] == [];
  }

  /** Flattening a sequence of empty blocks yields nothing. */
  lemma {:induction false} FlattenOfEmpties<T>(blocks: seq<seq<T>>)
    requires forall k :: 0 <= k < |blocks| ==> blocks[k] == []
    ensures Flatten(blocks) == []
    decreases |blocks|
  {
    if |blocks| > 0 {
      FlattenOfEmpties(blocks[..|blocks| - 1]);
    }
  }

  /** Taking out the element at j takes one occurrence of it out of the multiset. */
  lemma MultisetSplitAt<T>(s: seq<T>, j: nat)
    requires j < |s|
    ensures multiset(s) == multiset(s[..j] + s[j + 1..]) + multiset{s[j]}
  {
    assert s == s[..j] + [s[j]] + s[j + 1..];
  }

  lemma MultisetCancel<T>(a: multiset<T>, b: multiset<T>, x: T)
    requires a + multiset{x} == b + multiset{x}
    ensures a == b
  {
    forall y
      ensures a[y] == b[y]
    {
      assert (a + multiset{x})[y] == (b + multiset{x})[y];
    }
  }

  /** For a non-empty a and an occurrence j of its last element in b: dropping both leaves
      sequences with equal multisets. */
  lemma DropMatching<T>(a: seq<T>, b: seq<T>, j: nat)
    requires |a| > 0 && j < |b| && b[j] == a[|a| - 1]
    requires multiset(a) == multiset(b)
    ensures multiset(a[..|a| - 1]) == multiset(b[..j] + b[j + 1..])
  {
    MultisetSplitAt(a, |a| - 1);
    assert a[..|a| - 1] + a[|a|..] == a[..|a| - 1];
    MultisetSplitAt(b, j);
    MultisetCancel(multiset(a[..|a| - 1]), multiset(b[..j] + b[j + 1..]), b[j]);
  }

  /** Flattening around position j: the blocks before, block j, the blocks after. */
  lemma FlattenAround<T>(b: seq<seq<T>>, j: nat)
    requires j < |b|
    ensures Flatten(b) == Flatten(b[..j]) + b[j] + Flatten(b[j + 1..])
  {
    assert b[..j] + b[j..] == b;
    FlattenConcat(b[..j], b[j..]);
    assert [b[j]] + b[j + 1..] == b[j..];
    FlattenConcat([b[j]], b[j + 1..]);
    FlattenSingle(b[j]);
  }

  /** Reordering the blocks (any permutation) keeps the multiset of their elements. */
  lemma {:induction false} FlattenMultiset<T>(a: seq<seq<T>>, b: seq<seq<T>>)
    requires multiset(a) == multiset(b)
    ensures multiset(Flatten(a)) == multiset(Flatten(b))
    decreases |a|
  {
    if |a| == 0 {
      assert |b| == |multiset(b)| == 0;
    } else {
      var x := a[|a| - 1];
      assert x in multiset(b);
      var j :| 0 <= j < |b| && b[j] == x;
      DropMatching(a, b, j);
      FlattenMultiset(a[..|a| - 1], b[..j] + b[j + 1..]);
      FlattenAround(b, j);
      FlattenConcat(b[..j], b[j + 1..]);
      FlattenAround(a, |a| - 1);
      assert a[|a|..] == [];
    }
  }

  /** Picking along two orders with the same multiset of indices picks the same multiset of blocks. */
  lemma {:induction false} PickMultiset<T>(o1: seq<nat>, o2: seq<nat>, blocks: seq<T>)
    requires forall k :: 0 <= k < |o1| ==> o1[k] < |blocks|
    requires forall k :: 0 <= k < |o2| ==> o2[k] < |blocks|
    requires multiset(o1) == multiset(o2)
    ensures multiset(Pick(o1, blocks)) == multiset(Pick(o2, blocks))
    decreases |o1|
  {
    if |o1| == 0 {
      assert |o2| == |multiset(o2)| == 0;
    } else {
      var m := |o1| - 1;
      assert o1[m] in multiset(o2);
      var j :| 0 <= j < |o2| && o2[j] == o1[m];
      DropMatching(o1, o2, j);
      PickMultiset(o1[..m], o2[..j] + o2[j + 1..], blocks);
      var p1 := Pick(o1, blocks);
      var p2 := Pick(o2, blocks);
      MultisetSplitAt(p1, m);
      assert p1[..m] + p1[m + 1..] == Pick(o1[..m], blocks);
      MultisetSplitAt(p2, j);
      assert p2[..j] + p2[j + 1..] == Pick(o2[..j] + o2[j + 1..], blocks);
    }
  }

  /** Blocks picked along a permutation of their indices have the same elements, with multiplicity. */
  lemma PermutedFlatten<T>(order: seq<nat>, blocks: seq<seq<T>>)
    requires multiset(order) == multiset(Range(|blocks|))
    ensures forall k :: 0 <= k < |order| ==> order[k] < |blocks|
    ensures multiset(Flatten(Pick(order, blocks))) == multiset(Flatten(blocks))
  {
    PermutationBounds(order, |blocks|);
    PickMultiset(order, Range(|blocks|), blocks);
    assert Pick(Range(|blocks|), blocks) == blocks;
    FlattenMultiset(Pick(order, blocks), blocks);
  }

  /** When every block but block j is empty and j is picked once, the flattening is block j. */
  lemma {:induction false} SingleSurvivor<T>(order: seq<nat>, blocks: seq<seq<T>>, j: nat)
    requires forall k :: 0 <= k < |order| ==> order[k] < |blocks|
    requires j < |blocks|
    requires multiset(order)[j] == 1
    requires forall i :: 0 <= i < |blocks| && i != j ==> blocks[i] == []
    ensures Flatten(Pick(order, blocks)) == blocks[j]
    decreases |order|
  {
    var m := |order| - 1;
    var init := order[..m];
    MultisetSplitAt(order, m);
    assert order[..m] + order[m + 1..] == init;
    var p := Pick(order, blocks);
    assert p[..m] == Pick(init, blocks);
    if order[m] == j {
      EmptyWhenAbsent(init, blocks, j);
    } else {
      SingleSurvivor(init, blocks, j);
    }
  }

  /** Picking only empty blocks, because the one non-empty block is never picked, gives nothing. */
  lemma EmptyWhenAbsent<T>(order: seq<nat>, blocks: seq<seq<T>>, j: nat)
    requires forall k :: 0 <= k < |order| ==> order[k] < |blocks|
    requires multiset(order)[j] == 0
    requires forall i :: 0 <= i < |blocks| && i != j ==> blocks[i] == []
    ensures Flatten(Pick(order, blocks)) == []
  {
    forall k | 0 <= k < |order|
      ensures Pick(order, blocks)[k] == []
    {
      assert order[k] in multiset(order);
    }
    FlattenOfEmpties(Pick(order, blocks));
  }

  /** Block i of the input occurs as one contiguous run of the flattened picks. */
  lemma BlockIsContiguous<T>(order: seq<nat>, blocks: seq<seq<T>>, i: nat)
    requires forall k :: 0 <= k < |order| ==> order[k] < |blocks|
    requires i in order
    ensures exists off :: InfixAt(Flatten(Pick(order, blocks)), blocks[i], off)
  {
    var k :| 0 <= k < |order| && order[k] == i;
    var p := Pick(order, blocks);
    assert p == p[..k] + [blocks[i]] + p[k + 1..];
    FlattenConcat(p[..k] + [blocks[i]], p[k + 1..]);
    FlattenConcat(p[..k], [blocks[i]]);
    FlattenSingle(blocks[i]);
    var off := |Flatten(p[..k])|;
    assert InfixAt(Flatten(p), blocks[i], off);
  }
}
