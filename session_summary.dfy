/**
 * The post-workout summary (src/services/sessionSummary.ts): total and
 * longest hold over the recorded segments and a calorie estimate from a
 * single metabolic-equivalent value. Arithmetic is over exact reals.
 */
module Summary {
  import opened Types

  datatype SessionSummary = SessionSummary(totalPlankMs: int, longestHoldMs: int, calories: int)

  /** Metabolic equivalent of holding a plank. */
  const MET_PLANK: real := 3.3

  function Max(a: int, b: int): int {
    if a >= b then a else b
  }

  /** The durations of the segments, in order. */
  function Durations(segs: seq<Segment>): (d: seq<int>)
    ensures |d| == |segs|
    ensures forall i :: 0 <= i < |segs| ==> d[i] == segs[i].durationMs
  {
    seq(|segs|, i requires 0 <= i < |segs| => segs[i].durationMs)
  }

  /** Sum of a sequence, accumulated from the front. */
  function Sum(d: seq<int>): int
    decreases |d|
  {
    if d == [] then 0 else Sum(d[..|d| - 1]) + d[|d| - 1]
  }

  /** Largest entry, starting from 0: an entry replaces the running value only when larger. */
  function Longest(d: seq<int>): int
    decreases |d|
  {
    if d == [] then 0 else Max(Longest(d[..|d| - 1]), d[|d| - 1])
  }

  /** `Math.round`: the nearest integer, halves rounded up. */
  function Round(x: real): (n: int)
    ensures n as real <= x + 0.5 < n as real + 1.0
  {
    (x + 0.5).Floor
  }

  /** Estimated kilocalories for `totalMs` milliseconds of holding at `weightKg`. */
  function Calories(totalMs: int, weightKg: real): (kcal: int)
    ensures totalMs >= 0 && weightKg >= 0.0 ==> kcal >= 0
    ensures totalMs == 0 || weightKg == 0.0 ==> kcal == 0
  {
    var totalHours := totalMs as real / 1000.0 / 60.0 / 60.0;
    var x := MET_PLANK * weightKg * totalHours;
    assert totalMs >= 0 && weightKg >= 0.0 ==> x >= 0.0 by {
      if totalMs >= 0 && weightKg >= 0.0 {
        assert MET_PLANK * weightKg >= 0.0;
        assert totalHours >= 0.0;
      }
    }
    Round(x)
  }

  /** What the summary of a list of segments is. */
  function SummaryOf(segs: seq<Segment>, weightKg: real): SessionSummary {
    var total := Sum(Durations(segs));
    SessionSummary(total, Longest(Durations(segs)), Calories(total, weightKg))
  }

  predicate NonNegative(d: seq<int>) {
    forall i :: 0 <= i < |d| ==> d[i] >= 0
  }

  // ---------- properties of the sum and the maximum ----------

  lemma {:induction false} LongestNonNegative(d: seq<int>)
    ensures Longest(d) >= 0
    decreases |d|
  {
    if d != [] {
      LongestNonNegative(d[..|d| - 1]);
    }
  }

  /** The longest hold is at least 0 and at least every single hold. */
  lemma {:induction false} LongestIsUpperBound(d: seq<int>)
    ensures Longest(d) >= 0
    ensures forall i :: 0 <= i < |d| ==> d[i] <= Longest(d)
    decreases |d|
  {
    LongestNonNegative(d);
    if d != [] {
      var d' := d[..|d| - 1];
      LongestIsUpperBound(d');
      forall i | 0 <= i < |d| ensures d[i] <= Longest(d) {
        if i < |d| - 1 {
          assert d[i] == d'[i];
        }
      }
    }
  }

  /** The longest hold is one of the holds, unless there is none longer than 0. */
  lemma {:induction false} LongestIsAttained(d: seq<int>)
    ensures Longest(d) == 0 || exists i :: 0 <= i < |d| && d[i] == Longest(d)
    ensures NonNegative(d) && d != [] ==> exists i :: 0 <= i < |d| && d[i] == Longest(d)
    decreases |d|
  {
    if d != [] {
      var d' := d[..|d| - 1];
      LongestIsAttained(d');
      if Longest(d) != d[|d| - 1] {
        assert Longest(d) == Longest(d');
        if Longest(d') != 0 {
          var i :| 0 <= i < |d'| && d'[i] == Longest(d');
          assert d[i] == Longest(d);
        } else {
          assert d[|d| - 1] < 0;
        }
      }
    }
  }

  /** With no negative durations, the longest hold never exceeds the total. */
  lemma {:induction false} LongestAtMostTotal(d: seq<int>)
    requires NonNegative(d)
    ensures Longest(d) <= Sum(d)
    decreases |d|
  {
    if d != [] {
      var d' := d[..|d| - 1];
      assert NonNegative(d') by {
        forall i | 0 <= i < |d'| ensures d'[i] >= 0 {
          assert d'[i] == d[i];
        }
      }
      LongestAtMostTotal(d');
      LongestNonNegative(d');
      assert Sum(d') >= 0;
    }
  }

  lemma SumSnoc(d: seq<int>, x: int)
    ensures Sum(d + [x]) == Sum(d) + x
  {
    assert (d + [x])[..|d|] == d;
  }

  lemma LongestSnoc(d: seq<int>, x: int)
    ensures Longest(d + [x]) == Max(Longest(d), x)
  {
    assert (d + [x])[..|d|] == d;
  }

  lemma DurationsSnoc(segs: seq<Segment>, k: int)
    requires 0 <= k < |segs|
    ensures Durations(segs[..k + 1]) == Durations(segs[..k]) + [segs[k].durationMs]
  {
  }

  /** Removing an entry before the last one: the result still ends in the last entry. */
  lemma RemoveBeforeLast(b: seq<int>, k: int)
    requires 0 <= k < |b| - 1
    ensures var r := b[..k] + b[k + 1..];
      && |r| == |b| - 1
      && r[|r| - 1] == b[|b| - 1]
      && r[..|r| - 1] == b[..|b| - 1][..k] + b[..|b| - 1][k + 1..]
  {
  }

  /** Removing one entry takes exactly that entry off the sum. */
  lemma {:induction false} SumRemove(b: seq<int>, k: int)
    requires 0 <= k < |b|
    ensures Sum(b) == Sum(b[..k] + b[k + 1..]) + b[k]
    decreases |b|
  {
    if k == |b| - 1 {
      assert b[..k] + b[k + 1..] == b[..|b| - 1];
    } else {
      RemoveBeforeLast(b, k);
      SumRemove(b[..|b| - 1], k);
    }
  }

  /** Removing one entry leaves a sequence whose maximum, with that entry, is the original maximum. */
  lemma {:induction false} LongestRemove(b: seq<int>, k: int)
    requires 0 <= k < |b|
    ensures Longest(b) == Max(Longest(b[..k] + b[k + 1..]), b[k])
    decreases |b|
  {
    if k == |b| - 1 {
      assert b[..k] + b[k + 1..] == b[..|b| - 1];
    } else {
      RemoveBeforeLast(b, k);
      LongestRemove(b[..|b| - 1], k);
    }
  }

  /** Taking one occurrence of the same value out of two equal multisets leaves equal multisets. */
  lemma MultisetRemove(a: seq<int>, b: seq<int>, k: int)
    requires a != [] && multiset(a) == multiset(b)
    requires 0 <= k < |b| && b[k] == a[|a| - 1]
    ensures multiset(a[..|a| - 1]) == multiset(b[..k] + b[k + 1..])
  {
    var x := a[|a| - 1];
    assert a == a[..|a| - 1] + [x];
    assert b == b[..k] + [x] + b[k + 1..];
    assert multiset(a[..|a| - 1]) == multiset(a) - multiset{x};
    assert multiset(b[..k] + b[k + 1..]) == multiset(b) - multiset{x};
  }

  /** Total and longest hold depend only on the multiset of durations, not on their order. */
  lemma {:induction false} PermutationInvariant(a: seq<int>, b: seq<int>)
    requires multiset(a) == multiset(b)
    ensures Sum(a) == Sum(b)
    ensures Longest(a) == Longest(b)
    decreases |a|
  {
    if a == [] {
      assert |b| == |multiset(b)| == 0;
    } else {
      var x := a[|a| - 1];
      assert x in multiset(b);
      var k :| 0 <= k < |b| && b[k] == x;
      MultisetRemove(a, b, k);
      PermutationInvariant(a[..|a| - 1], b[..k] + b[k + 1..]);
      SumRemove(b, k);
      LongestRemove(b, k);
    }
  }

  /** Reordering the segments, or changing their sides, does not change the summary. */
  lemma SummaryIgnoresOrderAndSide(a: seq<Segment>, b: seq<Segment>, weightKg: real)
    requires multiset(Durations(a)) == multiset(Durations(b))
    ensures SummaryOf(a, weightKg) == SummaryOf(b, weightKg)
  {
    PermutationInvariant(Durations(a), Durations(b));
  }

  // ---------- calories ----------

  /** For a fixed, non-negative weight, more holding time never gives fewer calories. */
  lemma CaloriesMonotone(t1: int, t2: int, weightKg: real)
    requires t1 <= t2 && weightKg >= 0.0
    ensures Calories(t1, weightKg) <= Calories(t2, weightKg)
  {
    var h1 := t1 as real / 1000.0 / 60.0 / 60.0;
    var h2 := t2 as real / 1000.0 / 60.0 / 60.0;
    assert h1 <= h2;
    var k := MET_PLANK * weightKg;
    assert k >= 0.0;
    assert k * h1 <= k * h2 by {
      assert k * h2 - k * h1 == k * (h2 - h1);
    }
  }

  lemma ExampleSummary()
    ensures SummaryOf([Segment(Front, 20000), Segment(Left, 15000)], 70.0) == SessionSummary(35000, 20000, 2)
  {
    var segs := [Segment(Front, 20000), Segment(Left, 15000)];
    var d := Durations(segs);
    assert d == [20000, 15000];
    assert d[..1] == [20000];
    assert [20000][..0] == [];
    assert Sum(d) == 35000;
    assert Longest(d) == 20000;
    var x := MET_PLANK * 70.0 * (35000 as real / 1000.0 / 60.0 / 60.0);
    assert x == 8085000.0 / 3600000.0;
    assert 2.0 <= x + 0.5 < 3.0;
  }

  /** No segments: everything is zero. */
  lemma EmptySummary(weightKg: real)
    ensures SummaryOf([], weightKg) == SessionSummary(0, 0, 0)
  {
  }

  // ---------- one step of the loop, and what its result guarantees ----------

  /** One more segment adds its duration to the total and may raise the longest hold. */
  lemma SummaryStep(segs: seq<Segment>, k: int)
    requires 0 <= k < |segs|
    ensures Sum(Durations(segs[..k + 1])) == Sum(Durations(segs[..k])) + segs[k].durationMs
    ensures Longest(Durations(segs[..k + 1])) == Max(Longest(Durations(segs[..k])), segs[k].durationMs)
  {
    DurationsSnoc(segs, k);
    SumSnoc(Durations(segs[..k]), segs[k].durationMs);
    LongestSnoc(Durations(segs[..k]), segs[k].durationMs);
  }

  /** What the summary promises about the longest hold of any segment list. */
  lemma SummaryBounds(segs: seq<Segment>, weightKg: real)
    ensures SummaryOf(segs, weightKg).longestHoldMs >= 0
    ensures forall i :: 0 <= i < |segs| ==> segs[i].durationMs <= SummaryOf(segs, weightKg).longestHoldMs
    ensures NonNegative(Durations(segs)) ==> SummaryOf(segs, weightKg).longestHoldMs <= SummaryOf(segs, weightKg).totalPlankMs
  {
    var d := Durations(segs);
    LongestIsUpperBound(d);
    forall i | 0 <= i < |segs| ensures segs[i].durationMs <= Longest(d) {
      assert d[i] == segs[i].durationMs;
    }
    if NonNegative(d) {
      LongestAtMostTotal(d);
    }
  }

  // ---------- the computation as the source writes it ----------

  method ComputeSessionSummary(session: Session, preferences: Preferences) returns (summary: SessionSummary)
    ensures summary == SummaryOf(session.segments, preferences.weightKg)
    ensures summary.longestHoldMs >= 0
    ensures forall i :: 0 <= i < |session.segments| ==> session.segments[i].durationMs <= summary.longestHoldMs
    ensures NonNegative(Durations(session.segments)) ==> summary.longestHoldMs <= summary.totalPlankMs
  {
    var segs := session.segments;
    var totalPlankMs := 0;
    var longestHoldMs := 0;
    for k := 0 to |segs|
      invariant totalPlankMs == Sum(Durations(segs[..k]))
      invariant longestHoldMs == Longest(Durations(segs[..k]))
    {
      var segment := segs[k];
      SummaryStep(segs, k);
      totalPlankMs := totalPlankMs + segment.durationMs;
      if segment.durationMs > longestHoldMs {
        longestHoldMs := segment.durationMs;
      }
    }
    assert segs[..|segs|] == segs;

    var totalHours := totalPlankMs as real / 1000.0 / 60.0 / 60.0;
    var calories := Round(MET_PLANK * preferences.weightKg * totalHours);

    summary := SessionSummary(totalPlankMs, longestHoldMs, calories);
    SummaryBounds(segs, preferences.weightKg);
  }
}
