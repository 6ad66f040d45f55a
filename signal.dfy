/**
  Sample-buffer arithmetic shared by both pitch-detector worklets: the ring
  write of an input block into a Float32Array, the Yin difference sum and the
  sum of squares. Samples are exact reals; Float32 rounding is not modelled.
 */
module Signal {

  /** A typed-array element store: a write outside the array is silently dropped. */
  function Store(buf: seq<real>, idx: int, v: real): (r: seq<real>)
    ensures |r| == |buf|
    ensures 0 <= idx < |buf| ==> r[idx] == v
    ensures forall j :: 0 <= j < |buf| && j != idx ==> r[j] == buf[j]
  {
    if 0 <= idx < |buf| then buf[idx := v] else buf
  }

  /** The fill loop of `process`: store each sample at the write index, then advance the
      index by one modulo the buffer size n. */
  function RingWrite(buf: seq<real>, idx: int, x: seq<real>, n: int): seq<real>
    requires n > 0
    decreases |x|
  {
    if x == [] then buf else RingWrite(Store(buf, idx, x[0]), (idx + 1) % n, x[1..], n)
  }

  /** The write index after the fill loop has stored k samples. */
  function RingIndex(idx: int, k: nat, n: int): int
    requires n > 0
    decreases k
  {
    if k == 0 then idx else RingIndex((idx + 1) % n, k - 1, n)
  }

  /** Euclidean division is unique: x = k * n + s with 0 <= s < n fixes the remainder. */
  lemma ModUnique(x: int, k: int, s: int, n: int)
    requires n > 0 && x == k * n + s && 0 <= s < n
    ensures x % n == s
  {
    var d := k - x / n;
    assert d * n == x % n - s;
  }

  /** Reduction of a number in [-n, n) modulo n. */
  lemma SmallMod(x: int, n: int)
    requires n > 0 && -n <= x < n
    ensures x % n == if x >= 0 then x else x + n
  {
    if x >= 0 {
      ModUnique(x, 0, x, n);
    } else {
      ModUnique(x, -1, x + n, n);
    }
  }

  lemma ModOfSum(a: int, b: int, n: int)
    requires a >= 0 && b >= 0 && n > 0
    ensures (a % n + b) % n == (a + b) % n
  {
    var q, m := a / n, a % n + b;
    ModUnique(a + b, q + m / n, m % n, n);
    ModUnique(m, m / n, m % n, n);
  }

  /** After k >= 1 samples the index is (idx + k) mod n, even when idx started out of range. */
  lemma {:induction false} RingIndexIsMod(idx: int, k: nat, n: int)
    requires idx >= 0 && n > 0 && k >= 1
    ensures RingIndex(idx, k, n) == (idx + k) % n
    decreases k
  {
    if k > 1 {
      RingIndexIsMod((idx + 1) % n, k - 1, n);
      ModOfSum(idx + 1, k - 1, n);
    }
  }

  /** Once at least one sample has been stored the write index lies in [0, n). */
  lemma RingIndexInRange(idx: int, k: nat, n: int)
    requires idx >= 0 && n > 0 && (k >= 1 || idx < n)
    ensures 0 <= RingIndex(idx, k, n) < n
  {
    if k >= 1 {
      RingIndexIsMod(idx, k, n);
    }
  }

  /** Where the samples land: for a block no longer than an n-sample buffer and an in-range
      start index, sample i is at (idx + i) mod n and every other cell keeps its value. */
  lemma {:induction false} RingWriteContents(buf: seq<real>, idx: int, x: seq<real>, n: int)
    requires n > 0 && |buf| == n && 0 <= idx < n && |x| <= n
    ensures |RingWrite(buf, idx, x, n)| == n
    ensures forall j :: 0 <= j < n ==>
              RingWrite(buf, idx, x, n)[j] == if (j - idx) % n < |x| then x[(j - idx) % n] else buf[j]
    decreases |x|
  {
    if x != [] {
      var buf', idx' := Store(buf, idx, x[0]), (idx + 1) % n;
      RingWriteContents(buf', idx', x[1..], n);
      var r := RingWrite(buf, idx, x, n);
      forall j | 0 <= j < n
        ensures r[j] == if (j - idx) % n < |x| then x[(j - idx) % n] else buf[j]
      {
        RingOffsetStep(j, idx, n);
        var m, m' := (j - idx) % n, (j - idx') % n;
        assert r[j] == if m' < |x| - 1 then x[1..][m'] else buf'[j];
        if j == idx {
          assert m == 0 && m' == n - 1;
        } else {
          assert m' == m - 1;
        }
      }
    }
  }

  /** How the offset of cell j from the write index changes when the index advances. */
  lemma RingOffsetStep(j: int, idx: int, n: int)
    requires 0 <= j < n && 0 <= idx < n
    ensures j == idx ==> (j - idx) % n == 0 && (j - (idx + 1) % n) % n == n - 1
    ensures j != idx ==> (j - idx) % n >= 1 && (j - (idx + 1) % n) % n == (j - idx) % n - 1
  {
    NextIndex(idx, n);
    var next := (idx + 1) % n;
    SmallMod(j - idx, n);
    SmallMod(j - next, n);
  }

  /** The write index after idx wraps to 0 at the end of the buffer. */
  lemma NextIndex(idx: int, n: int)
    requires 0 <= idx < n
    ensures (idx + 1) % n == if idx + 1 < n then idx + 1 else 0
  {
    if idx + 1 < n {
      SmallMod(idx + 1, n);
    } else {
      ModUnique(idx + 1, 1, 0, n);
    }
  }

  /** The length of the fill leaves the buffer's length alone. */
  lemma {:induction false} RingWriteLength(buf: seq<real>, idx: int, x: seq<real>, n: int)
    requires n > 0
    ensures |RingWrite(buf, idx, x, n)| == |buf|
    decreases |x|
  {
    if x != [] {
      RingWriteLength(Store(buf, idx, x[0]), (idx + 1) % n, x[1..], n);
    }
  }

  /** The Yin difference at lag tau over the first n samples: the sum of the squared
      differences b[i] - b[i + tau] for i < n. */
  function DiffSum(b: seq<real>, tau: nat, n: nat): (s: real)
    requires n + tau <= |b|
    ensures s >= 0.0
  {
    if n == 0 then 0.0 else DiffSum(b, tau, n - 1) + (b[n - 1] - b[n - 1 + tau]) * (b[n - 1] - b[n - 1 + tau])
  }

  /** The sum of the squares of the first n samples. */
  function SumSquares(b: seq<real>, n: nat): (s: real)
    requires n <= |b|
    ensures s >= 0.0
  {
    if n == 0 then 0.0 else SumSquares(b, n - 1) + b[n - 1] * b[n - 1]
  }

  /** A silent buffer has zero difference at every lag. */
  lemma {:induction false} DiffSumOfSilence(b: seq<real>, tau: nat, n: nat)
    requires n + tau <= |b|
    requires forall i :: 0 <= i < |b| ==> b[i] == 0.0
    ensures DiffSum(b, tau, n) == 0.0
  {
    if n > 0 {
      DiffSumOfSilence(b, tau, n - 1);
    }
  }

  /** A silent buffer has zero energy. */
  lemma {:induction false} SumSquaresOfSilence(b: seq<real>, n: nat)
    requires n <= |b|
    requires forall i :: 0 <= i < |b| ==> b[i] == 0.0
    ensures SumSquares(b, n) == 0.0
  {
    if n > 0 {
      SumSquaresOfSilence(b, n - 1);
    }
  }
}
