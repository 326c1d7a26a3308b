/** The weighted-random choice among peers with free credit: one draw, one pass. */
module WeightedPick {
  import opened Int32

  ghost function Prefix(credits: seq<int>, n: nat): int
    requires n <= |credits|
  {
    if n == 0 then 0 else Prefix(credits, n - 1) + credits[n - 1]
  }

  ghost function Sum(credits: seq<int>): int {
    Prefix(credits, |credits|)
  }

  ghost predicate Positive(credits: seq<int>) {
    forall i | 0 <= i < |credits| :: credits[i] > 0
  }

  /** Draw r falls in the stretch of length credits[i] that belongs to candidate i. */
  ghost predicate Selects(credits: seq<int>, r: int, i: nat) {
    i < |credits| && Prefix(credits, i) <= r < Prefix(credits, i + 1)
  }

  lemma {:induction false} PrefixGrows(credits: seq<int>, i: nat, j: nat)
    requires Positive(credits) && i <= j <= |credits|
    ensures Prefix(credits, i) + (j - i) <= Prefix(credits, j)
  {
    if i < j { PrefixGrows(credits, i, j - 1); }
  }

  lemma {:induction false} PrefixOfSlice(credits: seq<int>, n: nat, k: nat)
    requires k <= n <= |credits|
    ensures Prefix(credits[..n], k) == Prefix(credits, k)
  {
    if k > 0 { PrefixOfSlice(credits, n, k - 1); }
  }

  /** What the running total of the pass is once candidate i has been added. */
  ghost function Running(credits: seq<int>, i: nat): int
    requires i < |credits|
  {
    Wrap(Prefix(credits, i + 1))
  }

  /**
    The pass the source makes, int32 sums included: the first candidate whose running total
    exceeds the draw. A draw below the wrapped total never falls back, however large the
    credits; when the total fits in int32, the candidate is the one whose stretch it falls in.
   */
  method Pick(credits: seq<int>, r: int) returns (i: nat, fellBack: bool)
    requires |credits| > 0 && Positive(credits)
    ensures i < |credits|
    ensures fellBack <==> forall j | 0 <= j < |credits| :: Running(credits, j) <= r
    ensures !fellBack ==> r < Running(credits, i) && forall j | 0 <= j < i :: Running(credits, j) <= r
    ensures 0 <= r < Wrap(Sum(credits)) ==> !fellBack
    ensures Sum(credits) <= MAX_INT32 && 0 <= r < Sum(credits) ==> !fellBack && Selects(credits, r, i)
  {
    var sum, n := 0, 0;
    ghost var fits := Sum(credits) <= MAX_INT32 && 0 <= r;
    while n < |credits|
      invariant n <= |credits| && sum == Wrap(Prefix(credits, n))
      invariant forall j | 0 <= j < n :: Running(credits, j) <= r
      invariant fits ==> sum == Prefix(credits, n) && Prefix(credits, n) <= r
    {
      PrefixGrows(credits, n + 1, |credits|);
      PrefixGrows(credits, 0, n + 1);
      WrapExact(Prefix(credits, n + 1));
      WrapAdd(Prefix(credits, n), credits[n]);
      sum := Wrap(sum + credits[n]);
      assert sum == Running(credits, n);
      if r < sum { return n, false; }
      n := n + 1;
    }
    assert Running(credits, |credits| - 1) <= r;
    return |credits| - 1, true;
  }

  /** Every draw below the total belongs to exactly one candidate. */
  lemma {:induction false} DrawBelongsOnce(credits: seq<int>, r: int) returns (i: nat)
    requires Positive(credits) && 0 <= r < Sum(credits)
    ensures Selects(credits, r, i) && forall j: nat | Selects(credits, r, j) :: j == i
  {
    i := 0;
    while !(r < Prefix(credits, i + 1))
      invariant i < |credits| && Prefix(credits, i) <= r
      decreases |credits| - i
    {
      i := i + 1;
    }
    forall j: nat | Selects(credits, r, j) ensures j == i {
      if j < i { PrefixGrows(credits, j + 1, i); } else if i < j { PrefixGrows(credits, i + 1, j); }
    }
  }

  predicate Within(lo: int, r: int, hi: int) {
    lo <= r < hi
  }

  ghost function Interval(lo: int, hi: int): set<int> {
    set r | lo <= r < hi && Within(lo, r, hi)
  }

  lemma {:induction false} IntervalSize(lo: int, hi: int)
    requires lo <= hi
    ensures |Interval(lo, hi)| == hi - lo
    decreases hi - lo
  {
    if lo < hi {
      IntervalSize(lo, hi - 1);
      assert Interval(lo, hi) == Interval(lo, hi - 1) + {hi - 1};
    } else {
      assert Interval(lo, hi) == {};
    }
  }

  /** Exactly proportional: of the draws below the total, as many select a candidate as it has credit. */
  lemma PickIsProportional(credits: seq<int>, i: nat)
    requires Positive(credits) && i < |credits|
    ensures |set r | 0 <= r < Sum(credits) && Selects(credits, r, i)| == credits[i]
  {
    PrefixGrows(credits, 0, i);
    PrefixGrows(credits, i + 1, |credits|);
    var mine := Interval(Prefix(credits, i), Prefix(credits, i + 1));
    forall r ensures r in mine <==> 0 <= r < Sum(credits) && Selects(credits, r, i) { }
    assert (set r | 0 <= r < Sum(credits) && Selects(credits, r, i)) == mine;
    IntervalSize(Prefix(credits, i), Prefix(credits, i + 1));
  }

  /** A total past int32 wraps: two peers with free credit between them can present a negative one. */
  lemma TotalCanWrap()
    ensures Positive([MAX_INT32, 1]) && Wrap(Sum([MAX_INT32, 1])) < 0
  {
    assert Prefix([MAX_INT32, 1], 1) == MAX_INT32;
  }
}
