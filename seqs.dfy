/** Flattening of nested list comprehensions: `[x for a in A for b in B(a)]` is `Flatten` of the blocks `B(a)`. */
module Seqs {

  /** The blocks, concatenated in order. */
  function Flatten<T>(blocks: seq<seq<T>>): (r: seq<T>)
    ensures |r| == TotalLength(blocks)
  {
    if blocks == [] then [] else blocks[0] + Flatten(blocks[1..])
  }

  /** The sum of the lengths of the blocks. */
  function TotalLength<T>(blocks: seq<seq<T>>): nat
  {
    if blocks == [] then 0 else |blocks[0]| + TotalLength(blocks[1..])
  }

  /** Flattening distributes over concatenation of the block lists. */
  lemma {:induction false} FlattenAppend<T>(a: seq<seq<T>>, b: seq<seq<T>>)
    ensures Flatten(a + b) == Flatten(a) + Flatten(b)
  {
    if a != [] {
      assert (a + b)[1..] == a[1..] + b;
      FlattenAppend(a[1..], b);
    } else {
      assert a + b == b;
    }
  }

  /** Element `k` of block `e` sits right after all elements of the blocks before `e`. */
  lemma {:induction false} FlattenAt<T>(blocks: seq<seq<T>>, e: nat, k: nat)
    requires e < |blocks| && k < |blocks[e]|
    ensures TotalLength(blocks[..e]) + k < |Flatten(blocks)|
    ensures Flatten(blocks)[TotalLength(blocks[..e]) + k] == blocks[e][k]
  {
    if e == 0 {
      assert blocks[..0] == [];
    } else {
      FlattenAt(blocks[1..], e - 1, k);
      assert blocks[..e][1..] == blocks[1..][..e - 1];
      assert blocks[..e][0] == blocks[0];
    }
  }

  /** Blocks of a common width `w` have `|blocks| * w` elements in all. */
  lemma {:induction false} TotalLengthUniform<T>(blocks: seq<seq<T>>, w: nat)
    requires forall i :: 0 <= i < |blocks| ==> |blocks[i]| == w
    ensures TotalLength(blocks) == |blocks| * w
  {
    if blocks != [] {
      TotalLengthUniform(blocks[1..], w);
      assert TotalLength(blocks) == w + (|blocks| - 1) * w;
    }
  }

  /** With blocks of a common width `w`, element `k` of block `e` is at index `e * w + k`. */
  lemma FlattenUniformAt<T>(blocks: seq<seq<T>>, w: nat, e: nat, k: nat, index: nat)
    requires forall i :: 0 <= i < |blocks| ==> |blocks[i]| == w
    requires e < |blocks| && k < w
    requires index == e * w + k
    ensures index < |Flatten(blocks)|
    ensures Flatten(blocks)[index] == blocks[e][k]
  {
    TotalLengthUniform(blocks, w);
    TotalLengthUniform(blocks[..e], w);
    FlattenAt(blocks, e, k);
    MulMonotonic(e + 1, |blocks|, w);
  }

  lemma MulMonotonic(a: nat, b: nat, w: nat)
    requires a <= b
    ensures a * w <= b * w
  {
  }

  /** An element is in the flattening exactly when it is in one of the blocks. */
  lemma {:induction false} FlattenMember<T>(blocks: seq<seq<T>>, x: T)
    ensures x in Flatten(blocks) <==> exists e :: 0 <= e < |blocks| && x in blocks[e]
  {
    if blocks != [] {
      FlattenMember(blocks[1..], x);
      if x in Flatten(blocks[1..]) {
        var e :| 0 <= e < |blocks[1..]| && x in blocks[1..][e];
        assert x in blocks[e + 1];
      }
      if exists e :: 0 <= e < |blocks| && x in blocks[e] {
        var e :| 0 <= e < |blocks| && x in blocks[e];
        if e > 0 {
          assert x in blocks[1..][e - 1];
        }
      }
    }
  }
}
