/** `_chunker`: the contiguous windows `seq[pos:pos + size]` for every
    `pos` in `range(0, len(seq), size)`. */
module Chunker {
  import opened Common

  function Min(a: int, b: int): int {
    if a <= b then a else b
  }

  /** The windows starting at positions pos, pos + size, ... below |s|; the
      upper slice bound is clamped to |s| as Python slicing does. */
  function Windows<T>(s: seq<T>, size: nat, pos: nat): (r: seq<seq<T>>)
    requires size >= 1
    requires pos <= |s|
    ensures Concat(r) == s[pos..]
    ensures forall i :: 0 <= i < |r| ==> 1 <= |r[i]| <= size
    ensures forall i :: 0 <= i < |r| - 1 ==> |r[i]| == size
    ensures pos == |s| <==> |r| == 0
    decreases |s| - pos
  {
    if pos == |s| then []
    else
      var hi := Min(pos + size, |s|);
      var rest := Windows(s, size, hi);
      assert s[pos..] == s[pos..hi] + s[hi..];
      [s[pos..hi]] + rest
  }

  /** There are as many windows as the rounded-up quotient bounds say. */
  lemma {:induction false} WindowsCount<T>(s: seq<T>, size: nat, pos: nat)
    requires size >= 1
    requires pos <= |s|
    ensures var k := |Windows(s, size, pos)|;
      (k - 1) * size < |s| - pos <= k * size || (k == 0 && pos == |s|)
    decreases |s| - pos
  {
    if pos < |s| {
      var hi := Min(pos + size, |s|);
      var k := |Windows(s, size, hi)|;
      assert |Windows(s, size, pos)| == k + 1;
      if hi < |s| {
        WindowsCount(s, size, hi);
        MulSucc(k, size);
      }
    }
  }

  lemma MulPred(i: int, size: int)
    ensures (i - 1) * size + size == i * size
  {
  }

  lemma MulSucc(k: int, size: int)
    ensures (k + 1) * size == k * size + size
    ensures (k + 1 - 1) * size == k * size
  {
  }

  /** The chunks of s for a positive size. */
  function Chunks<T>(s: seq<T>, size: nat): (r: seq<seq<T>>)
    requires size >= 1
    ensures Concat(r) == s
    ensures forall i :: 0 <= i < |r| ==> 1 <= |r[i]| <= size
    ensures forall i :: 0 <= i < |r| - 1 ==> |r[i]| == size
    ensures |r| == (|s| + size - 1) / size
  {
    var r := Windows(s, size, 0);
    assert s[0..] == s;
    WindowsCount(s, size, 0);
    CeilFromBounds(|s|, size, |r|);
    r
  }

  /** `_chunker` for any integer size: `range` refuses a step of 0, and a
      negative step over `range(0, len(seq), size)` yields no position. */
  function Chunk<T>(s: seq<T>, size: int): (r: Result<seq<seq<T>>>)
    ensures size == 0 <==> r == Failure(ChunkSizeZero)
    ensures size < 0 ==> r == Success([])
    ensures size > 0 ==> r.Success? && Concat(r.value) == s
  {
    if size == 0 then Failure(ChunkSizeZero)
    else if size < 0 then Success([])
    else Success(Chunks(s, size))
  }

  /** The window count given by the bounds is the rounded-up quotient. */
  lemma CeilFromBounds(n: nat, size: nat, k: nat)
    requires size >= 1
    requires (k - 1) * size < n <= k * size || (k == 0 && n == 0)
    ensures k == (n + size - 1) / size
  {
    if k > 0 {
      var m := n + size - 1 - (k - 1) * size - size;
      assert (k - 1) * size + size == k * size;
      DivUnique(n + size - 1, size, k, m);
    }
  }

  /** Euclidean division has a unique quotient. */
  lemma DivUnique(x: int, size: int, k: int, m: int)
    requires size >= 1 && 0 <= m < size
    requires x == k * size + m
    ensures x / size == k
  {
    var q := x / size;
    var r := x % size;
    assert (q - k) * size == q * size - k * size;
    if q > k {
      MulAtLeast(q - k, size);
    } else if q < k {
      MulAtLeast(k - q, size);
    }
  }

  lemma MulAtLeast(a: int, b: int)
    requires a >= 1 && b >= 1
    ensures a * b >= b
  {
    assert a * b == (a - 1) * b + b;
  }

  /** Window i, which starts at lo == pos + i * size, is exactly the Python
      slice seq[lo : lo + size] (clamped to the length of seq); for pos 0
      that is chunk i of `_chunker`. */
  lemma {:induction false} ChunkIsSlice<T>(s: seq<T>, size: nat, pos: nat, i: nat, lo: nat)
    requires size >= 1
    requires pos <= |s|
    requires i < |Windows(s, size, pos)|
    requires lo == pos + i * size
    ensures lo < |s|
    ensures Windows(s, size, pos)[i] == s[lo .. Min(lo + size, |s|)]
    decreases i
  {
    var hi := Min(pos + size, |s|);
    WindowsUnfold(s, size, pos);
    if i > 0 {
      assert hi == pos + size;
      MulPred(i, size);
      ChunkIsSlice(s, size, hi, i - 1, lo);
    }
  }

  /** The first window and the windows after it. */
  lemma WindowsUnfold<T>(s: seq<T>, size: nat, pos: nat)
    requires size >= 1
    requires pos < |s|
    ensures Windows(s, size, pos)
         == [s[pos..Min(pos + size, |s|)]] + Windows(s, size, Min(pos + size, |s|))
  {
  }

  /** An empty input yields no chunk; an input no longer than size yields one. */
  lemma ChunksOfShortInput<T>(s: seq<T>, size: nat)
    requires size >= 1
    ensures |s| == 0 ==> Chunks(s, size) == []
    ensures 0 < |s| <= size ==> Chunks(s, size) == [s]
  {
    if 0 < |s| <= size {
      assert Windows(s, size, |s|) == [];
      assert s[0..|s|] == s;
    }
  }
}
