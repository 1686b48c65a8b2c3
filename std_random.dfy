/** The parts of the C++ standard library the generator draws on: the `std::mt19937_64`
    engine, `std::normal_distribution`, `std::uniform_real_distribution` and `std::shuffle`.
    The engine is an abstract stream of draws: the k-th draw of the engine, as seen through a
    normal distribution, a uniform [0, 1) variate or a raw integer, is given by the stream's
    three functions. Every distribution call consumes one position of the stream. */
module StdRandom {
  import opened Outcomes

  datatype Stream = Stream(
    normal: (real, nat) -> real,  // normal(stdDev, k): the k-th draw of N(0, stdDev)
    unit: nat -> real,            // unit(k): the k-th draw as a canonical variate in [0, 1)
    raw: nat -> nat)              // raw(k): the k-th draw as an unsigned integer

  predicate InBounds(v: real, max: real) {
    -max <= v <= max
  }

  /** Some draw of N(0, stdDev) at or after position p lies in [-max, max]. */
  ghost predicate GaussianEnds(s: Stream, stdDev: real, max: real, p: nat) {
    exists k: nat :: p <= k && InBounds(s.normal(stdDev, k), max)
  }

  /** The rejection loop for N(0, stdDev) and [-max, max] ends with probability 1: the
      interval has positive width, or stdDev is 0 and every draw is 0. With max = 0 and a
      non-zero stdDev the loop needs a draw of exactly 0, an event of probability 0. */
  predicate GaussianTerminates(stdDev: real, max: real) {
    max > 0.0 || (max >= 0.0 && stdDev == 0.0)
  }

  /** What a random engine gives with probability 1: every canonical variate lies in
      [0, 1), and a rejection loop whose parameters satisfy `GaussianTerminates` ends. */
  ghost predicate Fair(s: Stream) {
    && (forall k: nat :: 0.0 <= s.unit(k) < 1.0)
    && (forall stdDev: real, max: real, p: nat {:trigger GaussianEnds(s, stdDev, max, p)} ::
          GaussianTerminates(stdDev, max) ==> GaussianEnds(s, stdDev, max, p))
  }

  /** `uniform_real_distribution(-max, max)` applied to the canonical variate u:
      `u * (b - a) + a` with a = -max and b = max. */
  function UniformValue(u: real, max: real): (v: real)
    requires 0.0 <= u < 1.0 && max >= 0.0
    ensures InBounds(v, max)
  {
    var width := max - -max;
    UnitScale(u, width);
    u * width + -max
  }

  lemma UnitScale(u: real, w: real)
    requires 0.0 <= u < 1.0 && w >= 0.0
    ensures 0.0 <= u * w <= w
  {
    assert w - u * w == (1.0 - u) * w;
  }

  /** The first draw of N(0, stdDev) at or after p that lies in [-max, max] exists,
      given any such draw at or after p. */
  lemma {:induction false} FirstGaussianExists(s: Stream, stdDev: real, max: real, p: nat, w: nat)
    requires p <= w && InBounds(s.normal(stdDev, w), max)
    ensures exists k: nat :: FirstGaussian(s, stdDev, max, p, k)
    decreases w - p
  {
    if !InBounds(s.normal(stdDev, p), max) {
      FirstGaussianExists(s, stdDev, max, p + 1, w);
      var k: nat :| FirstGaussian(s, stdDev, max, p + 1, k);
      assert FirstGaussian(s, stdDev, max, p, k);
    } else {
      assert FirstGaussian(s, stdDev, max, p, p);
    }
  }

  /** k is the position where the rejection loop of a truncated Gaussian started at p stops. */
  ghost predicate FirstGaussian(s: Stream, stdDev: real, max: real, p: nat, k: nat) {
    && p <= k
    && InBounds(s.normal(stdDev, k), max)
    && forall j: nat :: p <= j < k ==> !InBounds(s.normal(stdDev, j), max)
  }

  /** The position of the first draw of N(0, stdDev) at or after p that lies in
      [-max, max]. */
  ghost function GaussianIndex(s: Stream, stdDev: real, max: real, p: nat): (k: nat)
    requires GaussianEnds(s, stdDev, max, p)
    ensures p <= k && InBounds(s.normal(stdDev, k), max)
    ensures forall j: nat :: p <= j < k ==> !InBounds(s.normal(stdDev, j), max)
  {
    var w: nat :| p <= w && InBounds(s.normal(stdDev, w), max);
    FirstGaussianExists(s, stdDev, max, p, w);
    var k: nat :| FirstGaussian(s, stdDev, max, p, k);
    k
  }

  function Swap<T>(s: seq<T>, i: nat, j: nat): (r: seq<T>)
    requires i < |s| && j < |s|
    ensures |r| == |s| && multiset(r) == multiset(s)
  {
    s[i := s[j]][j := s[i]]
  }

  /** The swaps of `std::shuffle` from index i to the end: element i is exchanged with an
      element at an index drawn from [0, i]. */
  function SwapRun<T>(s: seq<T>, st: Stream, i: nat, p: nat): Drawn<seq<T>>
    requires 1 <= i <= |s|
    decreases |s| - i
  {
    if i == |s| then Drawn(s, p)
    else SwapRun(Swap(s, i, st.raw(p) % (i + 1)), st, i + 1, p + 1)
  }

  /** `std::shuffle` of s with the engine at position p: the shuffled sequence and the
      position after the |s| - 1 draws it takes. */
  function ShuffleSeq<T>(s: seq<T>, st: Stream, p: nat): Drawn<seq<T>>
  {
    if |s| == 0 then Drawn(s, p) else SwapRun(s, st, 1, p)
  }

  lemma {:induction false} SwapRunPermutes<T>(s: seq<T>, st: Stream, i: nat, p: nat)
    requires 1 <= i <= |s|
    ensures multiset(SwapRun(s, st, i, p).value) == multiset(s)
    ensures SwapRun(s, st, i, p).next == p + (|s| - i)
    decreases |s| - i
  {
    if i < |s| {
      SwapRunPermutes(Swap(s, i, st.raw(p) % (i + 1)), st, i + 1, p + 1);
    }
  }

  /** A shuffle is a permutation and advances the engine by one draw per element after the first. */
  lemma ShufflePermutes<T>(s: seq<T>, st: Stream, p: nat)
    ensures multiset(ShuffleSeq(s, st, p).value) == multiset(s)
    ensures |ShuffleSeq(s, st, p).value| == |s|
    ensures ShuffleSeq(s, st, p).next == if |s| == 0 then p else p + |s| - 1
  {
    if |s| > 0 {
      SwapRunPermutes(s, st, 1, p);
    }
    assert |multiset(ShuffleSeq(s, st, p).value)| == |multiset(s)|;
  }

  /** `m` successive shuffles of s starting at position p. */
  function Reshuffled<T>(st: Stream, s: seq<T>, p: nat, m: nat): Drawn<seq<T>>
  {
    if m == 0 then Drawn(s, p)
    else
      var prev := Reshuffled(st, s, p, m - 1);
      ShuffleSeq(prev.value, st, prev.next)
  }

  lemma {:induction false} ReshuffledPermutes<T>(st: Stream, s: seq<T>, p: nat, m: nat)
    ensures multiset(Reshuffled(st, s, p, m).value) == multiset(s)
  {
    if m > 0 {
      ReshuffledPermutes(st, s, p, m - 1);
      var prev := Reshuffled(st, s, p, m - 1);
      ShufflePermutes(prev.value, st, prev.next);
    }
  }

  /** `std::shuffle` on an array in place, drawing from the stream at position p. */
  method ShuffleInPlace<T>(a: array<T>, st: Stream, p: nat) returns (next: nat)
    modifies a
    ensures Drawn(a[..], next) == ShuffleSeq(old(a[..]), st, p)
  {
    next := p;
    if a.Length == 0 {
      return;
    }
    var i := 1;
    while i < a.Length
      invariant 1 <= i <= a.Length
      invariant SwapRun(a[..], st, i, next) == ShuffleSeq(old(a[..]), st, p)
    {
      var j := st.raw(next) % (i + 1);
      ghost var before := a[..];
      var t := a[i];
      a[i] := a[j];
      a[j] := t;
      assert a[..] == Swap(before, i, j);
      next := next + 1;
      i := i + 1;
    }
  }
}
