/** The journal's records: an analysis as the classifier or a remote model
    returns it, and a journal entry carrying one. */
module Entries {
  import opened Wrappers

  /** A flag string other than the three the journal knows. */
  type OtherFlag = s: string | s != "red" && s != "green" && s != "neutral" witness ""

  /** The `flag` field of an analysis.  The local classifier only ever
      produces the first three; a remote model's reply may carry any other
      string, kept in `Unknown`. */
  datatype Flag = Red | Green | Neutral | Unknown(raw: OtherFlag)

  /** The string the source stores in the `flag` field. */
  function FlagText(f: Flag): string
  {
    match f
    case Red => "red"
    case Green => "green"
    case Neutral => "neutral"
    case Unknown(raw) => raw
  }

  /** Reads a `flag` string: every string stands for exactly one flag, so
      rendering the flag gives the string back. */
  function ParseFlag(s: string): (f: Flag)
    ensures FlagText(f) == s
  {
    if s == "red" then Red
    else if s == "green" then Green
    else if s == "neutral" then Neutral
    else Unknown(s)
  }

  /** Distinct flags are stored as distinct strings. */
  lemma FlagTextRoundTrip(f: Flag)
    ensures ParseFlag(FlagText(f)) == f
  {
  }

  datatype Analysis = Analysis(
    flag: Flag,
    color: string,
    icon: string,
    title: string,
    message: string,
    suggestions: seq<string>)

  /** An hour of the day as `Date.prototype.getHours` returns it. */
  type Hour = h: int | 0 <= h < 24

  /** A journal entry.  Timestamps are milliseconds since the epoch; `date`
      and `time` are the locale renderings of the submission time, and `hour`
      is absent for entries stored without one. */
  datatype Entry = Entry(
    id: int,
    date: string,
    time: string,
    hour: Option<Hour>,
    text: string,
    analysis: Analysis,
    timestamp: int)

  /** One of the three values the journal itself knows. */
  predicate IsKnownFlag(f: Flag)
  {
    f == Red || f == Green || f == Neutral
  }

  function FlagOf(e: Entry): Flag
  {
    e.analysis.flag
  }

  /** `entries.filter(e => e.analysis.flag === f).length`.  Counted from the
      back, so that extending a prefix by one element is one unfolding. */
  function CountFlag(es: seq<Entry>, f: Flag): (n: nat)
    ensures n <= |es|
  {
    if es == [] then 0
    else CountFlag(es[..|es| - 1], f) + (if FlagOf(es[|es| - 1]) == f then 1 else 0)
  }

  lemma {:induction false} CountFlagConcat(a: seq<Entry>, b: seq<Entry>, f: Flag)
    ensures CountFlag(a + b, f) == CountFlag(a, f) + CountFlag(b, f)
    decreases |b|
  {
    if b == [] {
      assert a + b == a;
    } else {
      assert (a + b)[..|a + b| - 1] == a + b[..|b| - 1];
      assert (a + b)[|a + b| - 1] == b[|b| - 1];
      CountFlagConcat(a, b[..|b| - 1], f);
    }
  }

  lemma CountFlagSingle(e: Entry, f: Flag)
    ensures CountFlag([e], f) == if FlagOf(e) == f then 1 else 0
  {
    assert [e][..0] == [];
  }

  /** Taking out the entry at position `j` removes one copy of it from the
      multiset of entries, */
  lemma RemoveAtMultiset(b: seq<Entry>, j: nat)
    requires j < |b|
    ensures multiset(b[..j] + b[j + 1..]) == multiset(b) - multiset{b[j]}
  {
    assert b == b[..j] + [b[j]] + b[j + 1..];
    assert multiset(b) == multiset(b[..j]) + multiset{b[j]} + multiset(b[j + 1..]);
  }

  /** so taking the first entry out of one list and the same entry out of a
      rearrangement of it leaves two rearrangements of each other, */
  lemma RemoveMatching(a: seq<Entry>, b: seq<Entry>, j: nat)
    requires multiset(a) == multiset(b) && a != [] && j < |b| && b[j] == a[0]
    ensures multiset(a[1..]) == multiset(b[..j] + b[j + 1..])
  {
    calc {
      multiset(a[1..]);
      { assert a == [a[0]] + a[1..]; }
      multiset(a) - multiset{a[0]};
      multiset(b) - multiset{b[j]};
      { RemoveAtMultiset(b, j); }
      multiset(b[..j] + b[j + 1..]);
    }
  }

  /** A position where an entry of the multiset occurs in the list. */
  lemma IndexOf(b: seq<Entry>, x: Entry) returns (j: nat)
    requires x in multiset(b)
    ensures j < |b| && b[j] == x
  {
    j :| 0 <= j < |b| && b[j] == x;
  }

  /** and taking out an entry removes its flag from the counts. */
  lemma RemoveAtCount(b: seq<Entry>, j: nat, f: Flag)
    requires j < |b|
    ensures CountFlag(b, f) == CountFlag(b[..j] + b[j + 1..], f) + (if FlagOf(b[j]) == f then 1 else 0)
  {
    assert b == b[..j] + [b[j]] + b[j + 1..];
    CountFlagConcat(b[..j] + [b[j]], b[j + 1..], f);
    CountFlagConcat(b[..j], [b[j]], f);
    CountFlagConcat(b[..j], b[j + 1..], f);
    CountFlagSingle(b[j], f);
  }

  /** The count depends only on which entries there are, not on their order:
      it is the same for every rearrangement of the list. */
  lemma {:induction false} CountFlagPermutation(a: seq<Entry>, b: seq<Entry>, f: Flag)
    requires multiset(a) == multiset(b)
    ensures CountFlag(a, f) == CountFlag(b, f)
    decreases |a|
  {
    if a == [] {
      assert |b| == |multiset(b)| == 0;
    } else {
      var j := IndexOf(b, a[0]);
      var rest := b[..j] + b[j + 1..];
      var d := if FlagOf(a[0]) == f then 1 else 0;
      RemoveMatching(a, b, j);
      CountFlagPermutation(a[1..], rest, f);
      RemoveAtCount(b, j, f);
      CountFlagConcat([a[0]], a[1..], f);
      CountFlagSingle(a[0], f);
      calc {
        CountFlag(a, f);
        { assert a == [a[0]] + a[1..]; }
        CountFlag(a[1..], f) + d;
        CountFlag(rest, f) + d;
        CountFlag(b, f);
      }
    }
  }

  /** The three known counts never exceed the number of entries, and they
      add up to it exactly when no entry carries an unknown flag. */
  lemma {:induction false} CountFlagSum(es: seq<Entry>)
    ensures CountFlag(es, Red) + CountFlag(es, Green) + CountFlag(es, Neutral) <= |es|
    ensures (forall i | 0 <= i < |es| :: IsKnownFlag(FlagOf(es[i])))
            <==> CountFlag(es, Red) + CountFlag(es, Green) + CountFlag(es, Neutral) == |es|
  {
    if es != [] {
      var init := es[..|es| - 1];
      CountFlagSum(init);
      if forall i | 0 <= i < |es| :: IsKnownFlag(FlagOf(es[i])) {
        assert forall i | 0 <= i < |init| :: IsKnownFlag(FlagOf(init[i])) by {
          forall i | 0 <= i < |init| ensures IsKnownFlag(FlagOf(init[i])) {
            assert init[i] == es[i];
          }
        }
      } else {
        var k :| 0 <= k < |es| && !IsKnownFlag(FlagOf(es[k]));
        if k < |es| - 1 {
          assert init[k] == es[k];
        }
      }
    }
  }
}
