/** `getStreaks`: the run of equal flags the journal is currently on, counted
    from the newest entry, and the longest green and red runs ever. */
module Streaks {
  import opened Entries
  import opened Sorting

  datatype Streaks = Streaks(greenStreak: nat, redStreak: nat, currentGreenStreak: nat, currentRedStreak: nat)

  /** Sort key for newest-first order: `(a, b) => b.timestamp - a.timestamp`. */
  function NewestFirstKey(e: Entry): int
  {
    -e.timestamp
  }

  /** `[...entries].sort(...)`: the entries, newest first. */
  function NewestFirst(entries: seq<Entry>): (r: seq<Entry>)
    ensures forall i, j | 0 <= i < j < |r| :: r[i].timestamp >= r[j].timestamp
    ensures multiset(r) == multiset(entries)
  {
    SortBy(entries, NewestFirstKey)
  }

  /** The `n` entries from position `i` on all carry flag `f`. */
  predicate RunAt(es: seq<Entry>, f: Flag, i: nat, n: nat)
  {
    i + n <= |es| && forall k | i <= k < i + n :: FlagOf(es[k]) == f
  }

  /** The number of entries at the front of `es` that carry flag `f`. */
  function LeadingRun(es: seq<Entry>, f: Flag): (n: nat)
    ensures RunAt(es, f, 0, n)
    ensures n < |es| ==> FlagOf(es[n]) != f
  {
    if es == [] || FlagOf(es[0]) != f then 0
    else
      var rest := LeadingRun(es[1..], f);
      assert forall k | 1 <= k < 1 + rest :: es[k] == es[1..][k - 1];
      1 + rest
  }

  /** A run from the front that stops at the end or at a different flag is
      the leading run. */
  lemma {:induction false} LeadingRunExact(es: seq<Entry>, f: Flag, n: nat)
    requires RunAt(es, f, 0, n)
    requires n < |es| ==> FlagOf(es[n]) != f
    ensures LeadingRun(es, f) == n
  {
    if n > 0 {
      assert RunAt(es[1..], f, 0, n - 1) by {
        forall k | 0 <= k < n - 1 ensures FlagOf(es[1..][k]) == f {
          assert es[1..][k] == es[k + 1];
        }
      }
      assert n - 1 < |es[1..]| ==> es[1..][n - 1] == es[n];
      LeadingRunExact(es[1..], f, n - 1);
    }
  }

  /** `L` is the length of the longest run of `f` inside the first `k`
      entries: there is such a run, and no run there is longer. */
  ghost predicate LongestWithin(es: seq<Entry>, f: Flag, k: nat, L: nat)
  {
    && k <= |es|
    && (exists i: nat :: i + L <= k && RunAt(es, f, i, L))
    && (forall i: nat, m: nat :: i + m <= k && RunAt(es, f, i, m) ==> m <= L)
  }

  ghost predicate IsLongestRun(es: seq<Entry>, f: Flag, L: nat)
  {
    LongestWithin(es, f, |es|, L)
  }

  /** `t` is the length of the run of `f` that ends just before position `k`:
      the counter `tempGreen`/`tempRed` of the source. */
  ghost predicate SuffixRun(es: seq<Entry>, f: Flag, k: nat, t: nat)
  {
    t <= k <= |es| && RunAt(es, f, k - t, t) && (t < k ==> FlagOf(es[k - t - 1]) != f)
  }

  function Max(a: nat, b: nat): nat
  {
    if a < b then b else a
  }

  /** One step of the running counters: an entry with flag `f` extends the
      current run, any other entry (including a neutral one) resets it to
      zero, and the longest run so far is the larger of the old longest and
      the current run. */
  lemma RunStep(es: seq<Entry>, f: Flag, k: nat, t: nat, L: nat)
    requires k < |es| && SuffixRun(es, f, k, t) && LongestWithin(es, f, k, L)
    ensures var t' := if FlagOf(es[k]) == f then t + 1 else 0;
            SuffixRun(es, f, k + 1, t') && LongestWithin(es, f, k + 1, Max(L, t'))
  {
    var t' := if FlagOf(es[k]) == f then t + 1 else 0;
    var i0: nat :| i0 + L <= k && RunAt(es, f, i0, L);
    if t' > L {
      assert RunAt(es, f, k + 1 - t', t');
    } else {
      assert RunAt(es, f, i0, L);
    }
    forall i: nat, m: nat | i + m <= k + 1 && RunAt(es, f, i, m)
      ensures m <= Max(L, t')
    {
      if i + m == k + 1 && m > 0 {
        assert FlagOf(es[k]) == f;
      }
    }
  }

  /** A run of `n` entries with flag `f` means at least `n` such entries. */
  lemma {:induction false} UniformCount(s: seq<Entry>, f: Flag)
    requires forall k | 0 <= k < |s| :: FlagOf(s[k]) == f
    ensures CountFlag(s, f) == |s|
  {
    if s != [] {
      UniformCount(s[..|s| - 1], f);
    }
  }

  lemma RunWithinCount(es: seq<Entry>, f: Flag, i: nat, n: nat)
    requires RunAt(es, f, i, n)
    ensures n <= CountFlag(es, f)
  {
    var run := es[i..i + n];
    assert es == es[..i] + run + es[i + n..];
    UniformCount(run, f);
    CountFlagConcat(es[..i] + run, es[i + n..], f);
    CountFlagConcat(es[..i], run, f);
  }

  /** The current run, read from the newest entry, is also a run when the
      list is read oldest first, so it is no longer than the longest run. */
  lemma CurrentWithinLongest(sorted: seq<Entry>, f: Flag, L: nat)
    requires IsLongestRun(Reversed(sorted), f, L)
    ensures LeadingRun(sorted, f) <= L
  {
    var c := LeadingRun(sorted, f);
    var n := |sorted|;
    var rev := Reversed(sorted);
    if c > 0 {
      ReversedAt(sorted, 0);
      forall k | n - c <= k < n ensures FlagOf(rev[k]) == f {
        ReversedAt(sorted, k);
      }
      assert RunAt(rev, f, n - c, c);
    }
  }

  /** Sorting and reversing only rearrange the entries, so they keep every
      flag count. */
  lemma ReorderedCount(entries: seq<Entry>, f: Flag)
    ensures CountFlag(Reversed(NewestFirst(entries)), f) == CountFlag(entries, f)
  {
    ReversedMultiset(NewestFirst(entries));
    CountFlagPermutation(Reversed(NewestFirst(entries)), entries, f);
  }

  /** The first loop of `getStreaks`: walk from the newest entry while the
      flag stays the same, stopping at the first change or neutral entry. */
  method CurrentStreaks(a: array<Entry>) returns (currentGreenStreak: nat, currentRedStreak: nat)
    ensures currentGreenStreak == LeadingRun(a[..], Green)
    ensures currentRedStreak == LeadingRun(a[..], Red)
    ensures currentGreenStreak == 0 || currentRedStreak == 0
  {
    ghost var sorted := a[..];
    currentGreenStreak, currentRedStreak := 0, 0;
    var i := 0;
    while i < a.Length
      invariant 0 <= i <= a.Length
      invariant currentGreenStreak == 0 || currentRedStreak == 0
      invariant currentGreenStreak + currentRedStreak == i
      invariant RunAt(sorted, Green, 0, currentGreenStreak)
      invariant RunAt(sorted, Red, 0, currentRedStreak)
    {
      if FlagOf(a[i]) == Green {
        if currentRedStreak == 0 { currentGreenStreak := currentGreenStreak + 1; } else { break; }
      } else if FlagOf(a[i]) == Red {
        if currentGreenStreak == 0 { currentRedStreak := currentRedStreak + 1; } else { break; }
      } else {
        break; // a neutral entry ends both streaks
      }
      i := i + 1;
    }
    LeadingRunExact(sorted, Green, currentGreenStreak);
    LeadingRunExact(sorted, Red, currentRedStreak);
  }

  /** The second loop of `getStreaks`: one pass over the entries, oldest
      first, with a running counter per flag and the longest value seen. */
  method LongestStreaks(a: array<Entry>) returns (longestGreen: nat, longestRed: nat)
    ensures IsLongestRun(a[..], Green, longestGreen)
    ensures IsLongestRun(a[..], Red, longestRed)
  {
    ghost var es := a[..];
    var tempGreen, tempRed := 0, 0;
    longestGreen, longestRed := 0, 0;
    assert RunAt(es, Green, 0, 0) && RunAt(es, Red, 0, 0);
    var k := 0;
    while k < a.Length
      invariant 0 <= k <= a.Length
      invariant SuffixRun(es, Green, k, tempGreen) && LongestWithin(es, Green, k, longestGreen)
      invariant SuffixRun(es, Red, k, tempRed) && LongestWithin(es, Red, k, longestRed)
    {
      ghost var g, lg, r, lr := tempGreen, longestGreen, tempRed, longestRed;
      var entry := a[k];
      if FlagOf(entry) == Green {
        tempGreen := tempGreen + 1;
        tempRed := 0;
        longestGreen := Max(longestGreen, tempGreen);
      } else if FlagOf(entry) == Red {
        tempRed := tempRed + 1;
        tempGreen := 0;
        longestRed := Max(longestRed, tempRed);
      } else {
        tempGreen := 0;
        tempRed := 0;
      }
      RunStep(es, Green, k, g, lg);
      RunStep(es, Red, k, r, lr);
      k := k + 1;
    }
  }

  /** A longest run is no longer than the number of entries with its flag. */
  lemma LongestWithinCount(es: seq<Entry>, f: Flag, L: nat)
    requires IsLongestRun(es, f, L)
    ensures L <= CountFlag(es, f)
  {
    var i: nat :| i + L <= |es| && RunAt(es, f, i, L);
    RunWithinCount(es, f, i, L);
  }

  /** `getStreaks`.  The current streaks are the leading runs of the
      newest-first list (so at most one is non-zero), the longest streaks are
      the longest runs of the list read oldest first (after the in-place
      `reverse`), each current streak is at most the matching longest one,
      and no streak exceeds the number of entries with that flag. */
  method GetStreaks(entries: seq<Entry>) returns (s: Streaks)
    ensures entries == [] ==> s == Streaks(0, 0, 0, 0)
    ensures s.currentGreenStreak == LeadingRun(NewestFirst(entries), Green)
    ensures s.currentRedStreak == LeadingRun(NewestFirst(entries), Red)
    ensures s.currentGreenStreak == 0 || s.currentRedStreak == 0
    ensures IsLongestRun(Reversed(NewestFirst(entries)), Green, s.greenStreak)
    ensures IsLongestRun(Reversed(NewestFirst(entries)), Red, s.redStreak)
    ensures s.currentGreenStreak <= s.greenStreak && s.currentRedStreak <= s.redStreak
    ensures s.greenStreak <= CountFlag(entries, Green) && s.redStreak <= CountFlag(entries, Red)
  {
    if |entries| == 0 {
      assert RunAt(Reversed(NewestFirst(entries)), Green, 0, 0);
      assert RunAt(Reversed(NewestFirst(entries)), Red, 0, 0);
      return Streaks(0, 0, 0, 0);
    }
    var sorted := NewestFirst(entries);
    var a := new Entry[|sorted|](i requires 0 <= i < |sorted| => sorted[i]);
    assert a[..] == sorted;
    var currentGreenStreak, currentRedStreak := CurrentStreaks(a);
    Reverse(a);
    var longestGreen, longestRed := LongestStreaks(a);
    CurrentWithinLongest(sorted, Green, longestGreen);
    CurrentWithinLongest(sorted, Red, longestRed);
    LongestWithinCount(a[..], Green, longestGreen);
    LongestWithinCount(a[..], Red, longestRed);
    ReorderedCount(entries, Green);
    ReorderedCount(entries, Red);
    s := Streaks(longestGreen, longestRed, currentGreenStreak, currentRedStreak);
  }
}
