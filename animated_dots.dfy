// The animated "..." after a status message: an interval advances a dot
// count through 0, 1, 2, 3 and back to 0, and dot k is visible while the
// count is at least k. The interval's period is a timing detail; each firing
// is one call of `Tick`.
module AnimatedDots {
  const MaxDots: int := 3

  /** The state updater: 3 (or more) wraps to 0, anything else counts up. */
  function NextCount(prev: int): (r: int)
    ensures prev >= MaxDots ==> r == 0
    ensures prev < MaxDots ==> r == prev + 1
  {
    if prev >= MaxDots then 0 else prev + 1
  }

  /** The count after `k` firings of the interval. */
  function Ticks(count: int, k: nat): int
    decreases k
  {
    if k == 0 then count else Ticks(NextCount(count), k - 1)
  }

  /** Which of the three dots are opaque. */
  function VisibleDots(count: int): (r: seq<bool>)
    ensures |r| == 3 && forall k :: 0 <= k < 3 ==> (r[k] <==> count >= k + 1)
  {
    [count >= 1, count >= 2, count >= 3]
  }

  function CountTrue(bs: seq<bool>): nat
  {
    if bs == [] then 0 else (if bs[0] then 1 else 0) + CountTrue(bs[1..])
  }

  /** The count never leaves 0..3 once it is there. */
  lemma {:induction false} TicksStayInRange(count: int, k: nat)
    requires 0 <= count <= MaxDots
    ensures 0 <= Ticks(count, k) <= MaxDots
    decreases k
  {
    if k > 0 {
      TicksStayInRange(NextCount(count), k - 1);
    }
  }

  lemma {:induction false} TicksAdd(count: int, j: nat, k: nat)
    ensures Ticks(count, j + k) == Ticks(Ticks(count, j), k)
    decreases j
  {
    if j > 0 {
      TicksAdd(NextCount(count), j - 1, k);
    }
  }

  /** Every four firings bring the count back to where it was. */
  lemma {:induction false} TicksPeriodic(count: int, rounds: nat)
    requires 0 <= count <= MaxDots
    ensures Ticks(count, 4 * rounds) == count
    decreases rounds
  {
    if rounds > 0 {
      TicksAdd(count, 4, 4 * (rounds - 1));
      assert Ticks(count, 4) == count;
      TicksPeriodic(count, rounds - 1);
    }
  }

  /** As many dots show as the count says. */
  lemma VisibleDotsCount(count: int)
    requires 0 <= count <= MaxDots
    ensures CountTrue(VisibleDots(count)) == count
  {
    var v := VisibleDots(count);
    assert v[1..] == [count >= 2, count >= 3] && v[1..][1..] == [count >= 3] && v[1..][1..][1..] == [];
    assert CountTrue(v[1..][1..]) == if count >= 3 then 1 else 0;
    assert CountTrue(v[1..]) == (if count >= 2 then 1 else 0) + CountTrue(v[1..][1..]);
  }

  class DotsMessage {
    var dotCount: int

    predicate Valid()
      reads this
    {
      0 <= dotCount <= MaxDots
    }

    /** `useState(0)`. */
    constructor ()
      ensures dotCount == 0 && Valid()
    {
      dotCount := 0;
    }

    /** One firing of the interval. */
    method Tick()
      requires Valid()
      modifies this
      ensures dotCount == NextCount(old(dotCount)) && Valid()
    {
      dotCount := if dotCount >= 3 then 0 else dotCount + 1;
    }

    /** The interval firing `k` times while mounted. */
    method RunInterval(k: nat)
      requires Valid()
      modifies this
      ensures dotCount == Ticks(old(dotCount), k) && Valid()
    {
      var fired := 0;
      while fired < k
        invariant 0 <= fired <= k && Valid()
        invariant Ticks(old(dotCount), k) == Ticks(dotCount, k - fired)
      {
        Tick();
        fired := fired + 1;
      }
    }
  }
}
