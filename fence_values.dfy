/**
 * Fence values are C# `long`s: 64-bit two's-complement integers. A queue's
 * next fence value starts at 1 and is advanced by an unchecked post-increment,
 * so it wraps from the largest `long` to the smallest one.
 */
module FenceValues {

  const MinLong: int := -0x8000_0000_0000_0000
  const MaxLong: int := 0x7fff_ffff_ffff_ffff
  /** Number of distinct `long` values. */
  const LongRange: int := 0x1_0000_0000_0000_0000

  predicate IsLong(x: int) {
    MinLong <= x <= MaxLong
  }

  /** The value a `long` field holds after `field++` in an unchecked context. */
  function PostIncrement(v: int): (r: int)
    requires IsLong(v)
    ensures IsLong(r)
    ensures v < MaxLong ==> r == v + 1
    ensures v == MaxLong ==> r == MinLong
  {
    (v + 1 - MinLong) % LongRange + MinLong
  }

  /** The counter's value after `n` post-increments starting from `start`. */
  function Counter(start: int, n: nat): (r: int)
    requires IsLong(start)
    ensures IsLong(r)
  {
    if n == 0 then start else PostIncrement(Counter(start, n - 1))
  }

  /**
   * The values handed out, in order, by `n` successive submissions to one
   * queue whose counter starts at `start`: each submission takes the
   * counter's current value and then increments it.
   */
  function Issued(start: int, n: nat): (s: seq<int>)
    requires IsLong(start)
    ensures |s| == n
    ensures forall i :: 0 <= i < n ==> IsLong(s[i])
  {
    if n == 0 then [] else Issued(start, n - 1) + [Counter(start, n - 1)]
  }

  /** As long as the counter has not reached the largest `long`, it counts exactly. */
  lemma {:induction false} CounterWithoutWrap(start: int, n: nat)
    requires IsLong(start) && start + n <= MaxLong
    ensures Counter(start, n) == start + n
  {
    if n > 0 {
      CounterWithoutWrap(start, n - 1);
    }
  }

  /** Before any wrap-around, the i-th value issued is `start + i`. */
  lemma {:induction false} IssuedWithoutWrap(start: int, n: nat)
    requires IsLong(start) && start + n <= MaxLong + 1
    ensures forall i :: 0 <= i < n ==> Issued(start, n)[i] == start + i
  {
    if n > 0 {
      IssuedWithoutWrap(start, n - 1);
      CounterWithoutWrap(start, n - 1);
    }
  }

  /**
   * Before any wrap-around the values issued to one queue are strictly
   * increasing, so none is handed out twice.
   */
  lemma IssuedStrictlyIncreasing(start: int, n: nat)
    requires IsLong(start) && start + n <= MaxLong + 1
    ensures forall i, j :: 0 <= i < j < n ==> Issued(start, n)[i] < Issued(start, n)[j]
  {
    IssuedWithoutWrap(start, n);
  }

  /**
   * A counter started at 1 wraps to the smallest `long` after 2^63 - 1
   * submissions: from then on the values issued are negative.
   */
  lemma CounterWrapsAfterMaxLongSubmissions()
    ensures Counter(1, MaxLong) == MinLong
  {
    CounterWithoutWrap(1, MaxLong - 1);
  }
}
