/** Arithmetic of the sliding window shared by every `chunk_text` variant:
    windows of `size` units start at `0, stride, 2*stride, ...` below the unit
    count `n`, where `stride = size - overlap`. */
module Windows {
  import opened Python

  /** `window - overlap`, the step handed to `range`. */
  function Stride(size: int, overlap: int): int {
    size - overlap
  }

  /** Number of window starts below `n`: `ceil(n / stride)`. */
  function ChunkCount(n: nat, stride: nat): nat
    requires stride > 0
  {
    (n + stride - 1) / stride
  }

  /** Start position of window `k`. */
  function Start(k: nat, stride: nat): nat {
    k * stride
  }

  lemma MulMono(a: int, b: int, d: int)
    requires d > 0 && a <= b
    ensures a * d <= b * d
  {
    assert (b - a) * d >= 0;
  }

  lemma DivBracket(x: nat, d: nat)
    requires d > 0
    ensures Start(x / d, d) <= x < Start(x / d, d) + d
  {
    assert x == (x / d) * d + x % d;
  }

  /** Window `k` exists exactly when its start lies below `n`: the windows
      are precisely the multiples of the stride below `n`. */
  lemma StartBelowIff(n: nat, stride: nat, k: nat)
    requires stride > 0
    ensures Start(k, stride) < n <==> k < ChunkCount(n, stride)
  {
    if n == 0 {
      DivIsUnique(stride - 1, stride, 0);
    } else {
      var q := (n - 1) / stride;
      assert n - 1 == q * stride + (n - 1) % stride;
      DivIsUnique(n - 1 + stride, stride, q + 1);
      if k <= q {
        MulMono(k, q, stride);
      } else {
        MulStep(q, k, stride);
      }
    }
  }

  /** Units `[Start(k), min(Start(k) + size, n))`: the slice chunk `k` joins. */
  function Window<T>(units: seq<T>, size: nat, stride: nat, k: nat): (w: seq<T>)
    requires stride > 0 && k < ChunkCount(|units|, stride)
    ensures |w| <= size
    ensures size > 0 ==> w != []
  {
    StartBelowIff(|units|, stride, k);
    units[Start(k, stride)..Min(Start(k, stride) + size, |units|)]
  }

  /** Unit `idx` falls inside the index range of window `k`. */
  predicate InWindow(n: nat, size: nat, stride: nat, k: nat, idx: nat) {
    Start(k, stride) <= idx < Min(Start(k, stride) + size, n)
  }

  /** Coverage: with `0 <= overlap < size` every unit lies in some window. */
  lemma Coverage(n: nat, size: nat, overlap: nat, idx: nat)
    requires overlap < size
    requires idx < n
    ensures exists k: nat :: k < ChunkCount(n, Stride(size, overlap)) && InWindow(n, size, Stride(size, overlap), k, idx)
  {
    var stride := Stride(size, overlap);
    var k := idx / stride;
    DivBracket(idx, stride);
    StartBelowIff(n, stride, k);
    assert InWindow(n, size, stride, k, idx);
  }

  /** Consecutive windows, the first of them full length, share exactly
      `overlap` units: the last `overlap` units of window `k` are the first
      `overlap` units of window `k + 1`, and no other index lies in both. */
  lemma ConsecutiveOverlap<T>(units: seq<T>, size: nat, overlap: nat, k: nat)
    requires overlap < size
    requires k + 1 < ChunkCount(|units|, Stride(size, overlap))
    requires Start(k, Stride(size, overlap)) + size <= |units|
    ensures Window(units, size, Stride(size, overlap), k)[Stride(size, overlap)..]
         == Window(units, size, Stride(size, overlap), k + 1)[..overlap]
    ensures forall idx: nat ::
              InWindow(|units|, size, Stride(size, overlap), k, idx) && InWindow(|units|, size, Stride(size, overlap), k + 1, idx)
              <==> Start(k + 1, Stride(size, overlap)) <= idx < Start(k + 1, Stride(size, overlap)) + overlap
  {
    var stride := Stride(size, overlap);
    assert Start(k + 1, stride) == Start(k, stride) + stride;
    StartBelowIff(|units|, stride, k + 1);
    var s1 := Start(k + 1, stride);
    assert Window(units, size, stride, k) == units[Start(k, stride)..s1 + overlap];
    assert Window(units, size, stride, k)[stride..] == units[s1..s1 + overlap];
    assert Window(units, size, stride, k + 1) == units[s1..Min(s1 + size, |units|)];
    assert Window(units, size, stride, k + 1)[..overlap] == units[s1..s1 + overlap];
    forall idx: nat
      ensures InWindow(|units|, size, stride, k, idx) && InWindow(|units|, size, stride, k + 1, idx)
              <==> Start(k + 1, stride) <= idx < Start(k + 1, stride) + overlap
    {
      assert Min(Start(k, stride) + size, |units|) == Start(k + 1, stride) + overlap;
    }
  }

  /** The last window reaches the end of the units: a short tail is kept as
      a window of its own rather than dropped. */
  lemma TailKept(n: nat, size: nat, overlap: nat)
    requires overlap < size
    requires n > 0
    ensures ChunkCount(n, Stride(size, overlap)) > 0
    ensures Min(Start(ChunkCount(n, Stride(size, overlap)) - 1, Stride(size, overlap)) + size, n) == n
  {
    var stride := Stride(size, overlap);
    StartBelowIff(n, stride, 0);
    var c := ChunkCount(n, stride);
    StartBelowIff(n, stride, c);
    assert Start(c, stride) == Start(c - 1, stride) + stride;
  }
}
