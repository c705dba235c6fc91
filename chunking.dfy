/**
 * `chunkArray(arr, size)` from the server command: `Math.ceil(len / size)`
 * consecutive slices of `size` items, the last one possibly shorter.
 */
module Chunking {

  /**
   * `Math.ceil(a / b)` for a non-negative `a` and a positive `b`, by repeated
   * subtraction: the number of groups of `b` needed to hold `a` items.
   */
  function CeilDiv(a: nat, b: nat): (q: nat)
    requires b > 0
    ensures a == 0 <==> q == 0
  {
    if a == 0 then 0 else if a <= b then 1 else 1 + CeilDiv(a - b, b)
  }

  /** `q` groups of `b` hold the `a` items, and one group fewer would not. */
  lemma {:induction false} CeilDivBounds(a: nat, b: nat)
    requires b > 0
    ensures CeilDiv(a, b) * b >= a
    ensures a > 0 ==> (CeilDiv(a, b) - 1) * b < a
  {
    if a > b {
      CeilDivBounds(a - b, b);
      var q := CeilDiv(a - b, b);
      assert (q + 1) * b == q * b + b;
    }
  }

  /**
   * The comprehension `Array.from({length: ceil(n/size)}, (_, i) => arr.slice(i*size, i*size + size))`;
   * `slice` stops at the end of the array, hence the `Min`.
   */
  function Chunk<T>(arr: seq<T>, size: nat): (chunks: seq<seq<T>>)
    requires size > 0
  {
    seq(CeilDiv(|arr|, size), i requires 0 <= i < CeilDiv(|arr|, size) => ChunkAt(arr, size, i))
  }

  /** `i * size`, by repeated addition: where chunk `i` starts. */
  function Start(i: nat, size: nat): nat
  {
    if i == 0 then 0 else Start(i - 1, size) + size
  }

  /** The element `i` of the comprehension: `arr.slice(i * size, i * size + size)`. */
  function ChunkAt<T>(arr: seq<T>, size: nat, i: nat): seq<T>
    requires size > 0
    requires i < CeilDiv(|arr|, size)
  {
    StartInside(|arr|, size, i);
    arr[Start(i, size) .. Min(Start(i, size) + size, |arr|)]
  }

  lemma {:induction false} StartIsProduct(i: nat, size: nat)
    ensures Start(i, size) == i * size
  {
    if i > 0 {
      StartIsProduct(i - 1, size);
      assert (i - 1) * size + size == i * size;
    }
  }

  /** Chunk `i` starts inside the array. */
  lemma {:induction false} StartInside(n: nat, size: nat, i: nat)
    requires size > 0
    requires i < CeilDiv(n, size)
    ensures Start(i, size) < n
  {
    if i > 0 {
      CeilDivStep(n, size);
      StartInside(n - size, size, i - 1);
    }
  }

  /** Past the first group, the quotient counts that group and the quotient of the rest. */
  lemma CeilDivStep(a: nat, b: nat)
    requires 0 < b
    requires CeilDiv(a, b) > 1
    ensures a > b
    ensures CeilDiv(a, b) == 1 + CeilDiv(a - b, b)
  {
  }

  function Min(a: int, b: int): int { if a <= b then a else b }

  /** The chunks laid end to end. */
  function Flatten<T>(chunks: seq<seq<T>>): seq<T>
  {
    if |chunks| == 0 then [] else chunks[0] + Flatten(chunks[1..])
  }

  /** There are exactly ceil(|arr| / size) chunks. */
  lemma ChunkCount<T>(arr: seq<T>, size: nat)
    requires size > 0
    ensures |Chunk(arr, size)| == CeilDiv(|arr|, size)
    ensures |Chunk(arr, size)| * size >= |arr|
  {
    CeilDivBounds(|arr|, size);
  }

  /** Every chunk has between 1 and `size` items, and all but the last have exactly `size`. */
  lemma ChunkSizes<T>(arr: seq<T>, size: nat, i: nat)
    requires size > 0
    requires i < |Chunk(arr, size)|
    ensures 1 <= |Chunk(arr, size)[i]| <= size
    ensures i < |Chunk(arr, size)| - 1 ==> |Chunk(arr, size)[i]| == size
    ensures i == |Chunk(arr, size)| - 1 ==> |Chunk(arr, size)[i]| == |arr| - i * size
  {
    var q := CeilDiv(|arr|, size);
    StartInside(|arr|, size, i);
    StartIsProduct(i, size);
    if i < q - 1 {
      StartInside(|arr|, size, i + 1);
      assert Start(i + 1, size) == Start(i, size) + size;
    } else {
      CeilDivBounds(|arr|, size);
      StartIsProduct(q, size);
      assert Start(q, size) == Start(i, size) + size;
    }
  }

  /** Chunking a long array takes its first `size` items and then chunks the rest. */
  lemma ChunkUnfold<T>(arr: seq<T>, size: nat)
    requires size > 0
    requires |arr| > 0
    ensures Chunk(arr, size) == [arr[..Min(size, |arr|)]] + Chunk(arr[Min(size, |arr|)..], size)
  {
    var c := Chunk(arr, size);
    var m := Min(size, |arr|);
    var rest := arr[m..];
    var d := Chunk(rest, size);
    if |arr| <= size {
      assert |rest| == 0;
      assert c == [arr[..m]];
    } else {
      assert |c| == 1 + |d|;
      forall i | 0 <= i < |d| ensures d[i] == c[i + 1] {
        ShiftSlice(arr, size, i);
      }
      assert c == [arr[..m]] + d;
    }
  }

  /** Chunk `i + 1` of the array is chunk `i` of the array without its first `size` items. */
  lemma ShiftSlice<T>(arr: seq<T>, size: nat, i: nat)
    requires 0 < size < |arr|
    requires i < CeilDiv(|arr| - size, size)
    requires i + 1 < CeilDiv(|arr|, size)
    ensures ChunkAt(arr[size..], size, i) == ChunkAt(arr, size, i + 1)
  {
    var tail := arr[size..];
    var lo := Start(i, size);
    assert lo < |tail| by { StartInside(|tail|, size, i); }
    var hi := Min(lo + size, |tail|);
    assert ChunkAt(arr, size, i + 1) == arr[size + lo .. size + hi] by {
      assert Start(i + 1, size) == size + lo;
    }
    SliceOfDrop(arr, size, lo, hi);
  }

  /** Slicing after dropping `d` items is slicing `d` further on. */
  lemma SliceOfDrop<T>(arr: seq<T>, d: nat, lo: nat, hi: nat)
    requires d <= |arr| && lo <= hi <= |arr| - d
    ensures arr[d..][lo .. hi] == arr[d + lo .. d + hi]
  {
  }

  /** Concatenating the chunks gives back the array, in order. */
  lemma {:induction false} FlattenChunk<T>(arr: seq<T>, size: nat)
    requires size > 0
    ensures Flatten(Chunk(arr, size)) == arr
    decreases |arr|
  {
    if |arr| > 0 {
      var m := Min(size, |arr|);
      ChunkUnfold(arr, size);
      FlattenChunk(arr[m..], size);
      var c := Chunk(arr, size);
      assert c[1..] == Chunk(arr[m..], size);
      assert arr == arr[..m] + arr[m..];
    } else {
      assert Chunk(arr, size) == [];
    }
  }
}
