/** The slice of Python's built-in behaviour that the chunkers and build loops
    rely on: `range` with a step, list slicing with negative indices, list
    indexing with negative indices, `str.join` and argument-less `str.split`.
    Exceptions these builtins raise are values of `PyError`. */
module Python {

  /** The exceptions the modelled code can raise. */
  datatype PyError =
    | ValueError   // `range(...)` with a zero step
    | KeyError     // a missing key in a JSON object
    | IndexError   // `shape[1]` of an empty numpy array

  /** Outcome of a Python expression that may raise. */
  datatype Result<+T> = Success(value: T) | Failure(error: PyError) {
    predicate IsFailure() {
      Failure?
    }

    function PropagateFailure<U>(): Result<U>
      requires Failure?
    {
      Failure(error)
    }

    function Extract(): T
      requires Success?
    {
      value
    }
  }

  function Min(a: int, b: int): int {
    if a <= b then a else b
  }

  // ---------------------------------------------------------------- range

  /** The values `range(start, stop, step)` yields, for a non-zero step. */
  function RangeSeq(start: int, stop: int, step: int): seq<int>
    requires step != 0
    decreases if step > 0 then stop - start else start - stop
  {
    if (step > 0 && start < stop) || (step < 0 && start > stop) then
      [start] + RangeSeq(start + step, stop, step)
    else
      []
  }

  /** `range(start, stop, step)`: a zero step raises ValueError. */
  function Range(start: int, stop: int, step: int): (r: Result<seq<int>>)
    ensures r.Failure? <==> step == 0
    ensures r.Failure? ==> r.error == ValueError
    ensures step < 0 && start <= stop ==> r == Success([])
  {
    if step == 0 then Failure(ValueError) else Success(RangeSeq(start, stop, step))
  }

  /** Quotient is determined by the bracketing multiples of the divisor. */
  lemma DivIsUnique(x: int, d: int, q: int)
    requires d > 0
    requires q * d <= x < q * d + d
    ensures x / d == q
  {
    var q' := x / d;
    if q' > q {
      MulStep(q, q', d);
      assert false;
    } else if q' < q {
      MulStep(q', q, d);
      assert false;
    }
  }

  lemma MulStep(a: int, b: int, d: int)
    requires d > 0 && a < b
    ensures a * d + d <= b * d
  {
    var e := b - a - 1;
    assert b * d == a * d + d + e * d;
    MulNonNeg(e, d);
  }

  lemma {:induction false} MulNonNeg(x: nat, d: nat)
    ensures x * d >= 0
  {
    if x > 0 {
      MulNonNeg(x - 1, d);
      assert x * d == (x - 1) * d + d;
    }
  }

  /** An ascending range holds `ceil((stop - start) / step)` values, the
      `k`-th of which is `start + k * step`. */
  lemma {:induction false} RangeSeqAscending(start: int, stop: int, step: int)
    requires step > 0
    ensures |RangeSeq(start, stop, step)| == if start < stop then (stop - start + step - 1) / step else 0
    ensures forall k :: 0 <= k < |RangeSeq(start, stop, step)| ==> RangeSeq(start, stop, step)[k] == start + k * step
    decreases stop - start
  {
    if start < stop {
      RangeSeqAscending(start + step, stop, step);
      var rest := RangeSeq(start + step, stop, step);
      assert RangeSeq(start, stop, step) == [start] + rest;
      if start + step < stop {
        DivIsUnique(stop - start + step - 1, step, (stop - start - 1) / step + 1);
      } else {
        DivIsUnique(stop - start + step - 1, step, 1);
      }
      forall k | 0 < k < |RangeSeq(start, stop, step)|
        ensures RangeSeq(start, stop, step)[k] == start + k * step
      {
        assert RangeSeq(start, stop, step)[k] == rest[k - 1];
        assert rest[k - 1] == start + step + (k - 1) * step;
      }
    }
  }

  // ---------------------------------------------------------------- slicing and indexing

  /** Normalises a slice bound the way Python does for step 1: a negative
      bound counts from the end, then the bound is clamped to `[0, n]`. */
  function SliceBound(i: int, n: nat): (b: nat)
    ensures b <= n
    ensures 0 <= i ==> b == Min(i, n)
  {
    var j := if i < 0 then i + n else i;
    if j < 0 then 0 else if j > n then n else j
  }

  /** `s[i:j]` */
  function Slice<T>(s: seq<T>, i: int, j: int): (r: seq<T>)
    ensures |r| <= |s|
    ensures 0 <= i <= j ==> r == s[Min(i, |s|)..Min(j, |s|)]
  {
    var lo := SliceBound(i, |s|);
    var hi := SliceBound(j, |s|);
    if lo < hi then s[lo..hi] else []
  }

  /** The position a Python index `i` refers to in a list of length `n`: a
      negative index counts from the end. */
  function Position(n: nat, i: int): (q: nat)
    requires -(n as int) <= i < n
    ensures q < n
    ensures q % n == i % n
  {
    if i < 0 then i + n else i
  }

  /** `s[i]`; anything outside `[-len(s), len(s))` raises, which callers
      must rule out. */
  function PyIndex<T>(s: seq<T>, i: int): T
    requires -|s| <= i < |s|
  {
    s[Position(|s|, i)]
  }

  // ---------------------------------------------------------------- join

  /** `sep.join(parts)` */
  function Join(sep: string, parts: seq<string>): string {
    if |parts| == 0 then ""
    else if |parts| == 1 then parts[0]
    else parts[0] + sep + Join(sep, parts[1..])
  }

  /** A space-joined list is empty exactly when the list is empty or holds
      one empty string. */
  lemma JoinEmptyIff(parts: seq<string>)
    ensures Join(" ", parts) == "" <==> |parts| == 0 || (|parts| == 1 && parts[0] == "")
  {
    if |parts| > 1 {
      assert |Join(" ", parts)| >= 1;
    }
  }

  // ---------------------------------------------------------------- split

  /** Python's `str.isspace` for one character: the code points that
      argument-less `str.split()` treats as separators. */
  predicate IsSpace(c: char) {
    var x := c as int;
    || (0x09 <= x <= 0x0D)
    || (0x1C <= x <= 0x20)
    || x == 0x85 || x == 0xA0 || x == 0x1680
    || (0x2000 <= x <= 0x200A)
    || x == 0x2028 || x == 0x2029 || x == 0x202F || x == 0x205F || x == 0x3000
  }

  predicate NoSpace(s: string) {
    forall i :: 0 <= i < |s| ==> !IsSpace(s[i])
  }

  predicate AllSpace(s: string) {
    forall i :: 0 <= i < |s| ==> IsSpace(s[i])
  }

  /** A token `str.split()` can produce: non-empty, without whitespace. */
  predicate IsWord(w: string) {
    w != [] && NoSpace(w)
  }

  /** Length of the longest whitespace-free prefix of `s`. */
  function WordLength(s: string): (k: nat)
    ensures k <= |s|
    ensures NoSpace(s[..k])
    ensures k < |s| ==> IsSpace(s[k])
  {
    if |s| == 0 || IsSpace(s[0]) then 0 else 1 + WordLength(s[1..])
  }

  /** `s.split()`: maximal runs of non-whitespace, in order. */
  function Split(s: string): (words: seq<string>)
    ensures forall k :: 0 <= k < |words| ==> IsWord(words[k])
    decreases |s|
  {
    if |s| == 0 then []
    else if IsSpace(s[0]) then Split(s[1..])
    else
      var k := WordLength(s);
      [s[..k]] + Split(s[k..])
  }

  /** A text splits into no words exactly when it is empty or all whitespace. */
  lemma {:induction false} SplitEmptyIff(s: string)
    ensures Split(s) == [] <==> AllSpace(s)
    decreases |s|
  {
    if |s| > 0 {
      if IsSpace(s[0]) {
        SplitEmptyIff(s[1..]);
        assert AllSpace(s) <==> AllSpace(s[1..]) by {
          if AllSpace(s[1..]) {
            forall i | 0 <= i < |s| ensures IsSpace(s[i]) {
              if i > 0 { assert s[i] == s[1..][i - 1]; }
            }
          }
        }
      } else {
        assert !AllSpace(s);
      }
    }
  }

  lemma {:induction false} WordLengthOfWordThenSpace(w: string, t: string)
    requires NoSpace(w)
    requires t == [] || IsSpace(t[0])
    ensures WordLength(w + t) == |w|
    decreases |w|
  {
    if |w| > 0 {
      assert (w + t)[1..] == w[1..] + t;
      WordLengthOfWordThenSpace(w[1..], t);
    } else {
      assert w + t == t;
    }
  }

  /** A word followed by whitespace (or nothing) splits off as one token. */
  lemma SplitWordThenSpace(w: string, t: string)
    requires IsWord(w)
    requires t == [] || IsSpace(t[0])
    ensures Split(w + t) == [w] + Split(t)
  {
    WordLengthOfWordThenSpace(w, t);
    assert (w + t)[0] == w[0];
    assert (w + t)[..|w|] == w;
    assert (w + t)[|w|..] == t;
  }

  /** Re-splitting a space-joined list of words gives back the list: no
      word contains whitespace and none is empty. */
  lemma {:induction false} SplitJoin(words: seq<string>)
    requires forall k :: 0 <= k < |words| ==> IsWord(words[k])
    ensures Split(Join(" ", words)) == words
    decreases |words|
  {
    if |words| == 1 {
      SplitWordThenSpace(words[0], "");
      assert words[0] + "" == words[0];
    } else if |words| > 1 {
      var rest := Join(" ", words[1..]);
      assert Join(" ", words) == words[0] + (" " + rest);
      SplitWordThenSpace(words[0], " " + rest);
      assert (" " + rest)[1..] == rest;
      SplitJoin(words[1..]);
      assert [words[0]] + words[1..] == words;
    }
  }
}
