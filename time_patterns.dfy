/** `getTimePatterns`: entries tallied into 24 hour buckets, the hours with
    the highest green and red ratios, and the insights drawn from them.
    The weekday of a timestamp is supplied by the caller (`dayOf`), standing
    for `new Date(timestamp).getDay()`. */
module TimePatterns {
  import opened Wrappers
  import opened Text
  import opened Entries

  /** One hour bucket: `{ total, red, green, neutral }`. */
  datatype HourCount = HourCount(total: nat, red: nat, green: nat, neutral: nat)

  const EmptyBucket := HourCount(0, 0, 0, 0)

  /** The flag string that names the `total` field of a bucket. */
  const TotalFlag: Flag := Unknown("total")

  /** How much one entry raises its bucket's total: `total++` and then
      `[flag]++`, which for the flag "total" raises the total a second time. */
  function Weight(e: Entry): nat
  {
    if FlagOf(e) == TotalFlag then 2 else 1
  }

  /** Counts one entry into the bucket of hour `h`: for an entry at that
      hour the total goes up by its weight and the count of its flag by one;
      any other entry changes nothing. */
  function Tally(c: HourCount, e: Entry, h: Hour): (r: HourCount)
    ensures r.total == c.total + (if e.hour == Some(h) then Weight(e) else 0)
    ensures r.red == c.red + (if e.hour == Some(h) && FlagOf(e) == Red then 1 else 0)
    ensures r.green == c.green + (if e.hour == Some(h) && FlagOf(e) == Green then 1 else 0)
    ensures r.neutral == c.neutral + (if e.hour == Some(h) && FlagOf(e) == Neutral then 1 else 0)
  {
    if e.hour != Some(h) then c
    else
      match FlagOf(e)
      case Red => c.(total := c.total + 1, red := c.red + 1)
      case Green => c.(total := c.total + 1, green := c.green + 1)
      case Neutral => c.(total := c.total + 1, neutral := c.neutral + 1)
      case Unknown(raw) => c.(total := c.total + (if raw == "total" then 2 else 1))
  }

  /** The bucket of hour `h` over all of `es`. */
  function Bucket(es: seq<Entry>, h: Hour): HourCount
  {
    if es == [] then EmptyBucket else Tally(Bucket(es[..|es| - 1], h), es[|es| - 1], h)
  }

  /** A bucket's three flag counts add up to at most its total, which is at
      most the number of entries. */
  lemma {:induction false} BucketBounds(es: seq<Entry>, h: Hour)
    ensures var c := Bucket(es, h);
            c.red + c.green + c.neutral <= c.total <= |es| + CountFlag(es, TotalFlag)
  {
    if es != [] {
      BucketBounds(es[..|es| - 1], h);
    }
  }

  function Buckets(es: seq<Entry>): (r: seq<HourCount>)
    ensures |r| == 24
  {
    seq(24, h requires 0 <= h < 24 => Bucket(es, h))
  }

  /** The entries for which `p` holds, in their order. */
  function Filter(es: seq<Entry>, p: Entry -> bool): (r: seq<Entry>)
    ensures |r| <= |es|
    ensures forall e :: e in r <==> e in es && p(e)
  {
    if es == [] then []
    else
      var init := Filter(es[..|es| - 1], p);
      var last := es[|es| - 1];
      assert forall e :: e in es <==> e in es[..|es| - 1] || e == last by {
        assert es == es[..|es| - 1] + [last];
      }
      if p(last) then init + [last] else init
  }

  /** `filter` keeps every copy of a kept entry and drops every copy of the
      others. */
  lemma {:induction false} FilterMultiset(es: seq<Entry>, p: Entry -> bool)
    ensures forall e :: multiset(Filter(es, p))[e] == if p(e) then multiset(es)[e] else 0
    decreases |es|
  {
    if es != [] {
      FilterMultiset(es[..|es| - 1], p);
      assert es == es[..|es| - 1] + [es[|es| - 1]];
    }
  }

  function AtHour(h: Hour): Entry -> bool
  {
    (e: Entry) => e.hour == Some(h)
  }

  /** A bucket holds exactly the entries stamped with its hour: its total is
      their number, plus one more for each of them flagged "total", and its
      red, green and neutral counters are their flag counts. */
  lemma {:induction false} BucketCounts(es: seq<Entry>, h: Hour)
    ensures Bucket(es, h).total
            == |Filter(es, AtHour(h))| + CountFlag(Filter(es, AtHour(h)), TotalFlag)
    ensures Bucket(es, h).red == CountFlag(Filter(es, AtHour(h)), Red)
    ensures Bucket(es, h).green == CountFlag(Filter(es, AtHour(h)), Green)
    ensures Bucket(es, h).neutral == CountFlag(Filter(es, AtHour(h)), Neutral)
  {
    if es != [] {
      var init := es[..|es| - 1];
      var last := es[|es| - 1];
      BucketCounts(init, h);
      if last.hour == Some(h) {
        var f := Filter(init, AtHour(h));
        assert Filter(es, AtHour(h)) == f + [last];
        assert (f + [last])[..|f|] == f;
      }
    }
  }

  /** Sum of the totals of the first `n` buckets. */
  function TotalBelow(es: seq<Entry>, n: nat): nat
    requires n <= 24
  {
    if n == 0 then 0 else TotalBelow(es, n - 1) + Bucket(es, n - 1).total
  }

  function HasHour(e: Entry): bool
  {
    e.hour.Some?
  }

  lemma {:induction false} TotalBelowStep(es: seq<Entry>, e: Entry, n: nat)
    requires n <= 24
    ensures TotalBelow(es + [e], n)
            == TotalBelow(es, n) + (if e.hour.Some? && e.hour.value < n then Weight(e) else 0)
  {
    if n > 0 {
      TotalBelowStep(es, e, n - 1);
      assert (es + [e])[..|es + [e]| - 1] == es;
    }
  }

  /** Every entry that has an hour lands in exactly one bucket: the totals of
      the 24 buckets add up to the number of such entries, those flagged
      "total" counted twice. */
  lemma {:induction false} BucketsPartition(es: seq<Entry>)
    ensures TotalBelow(es, 24)
            == |Filter(es, HasHour)| + CountFlag(Filter(es, HasHour), TotalFlag)
  {
    if es == [] {
      assert TotalBelow(es, 24) == 0 by {
        forall n: nat | n <= 24 ensures TotalBelow(es, n) == 0 {
          ZeroBelow(es, n);
        }
      }
    } else {
      var init := es[..|es| - 1];
      var last := es[|es| - 1];
      assert es == init + [last];
      BucketsPartition(init);
      TotalBelowStep(init, last, 24);
      if last.hour.Some? {
        var f := Filter(init, HasHour);
        assert Filter(es, HasHour) == f + [last];
        assert (f + [last])[..|f|] == f;
      }
    }
  }

  lemma {:induction false} ZeroBelow(es: seq<Entry>, n: nat)
    requires es == [] && n <= 24
    ensures TotalBelow(es, n) == 0
  {
    if n > 0 {
      ZeroBelow(es, n - 1);
    }
  }

  /** The first loops of `getTimePatterns`: 24 empty buckets, then one pass
      over the entries raising the bucket of each entry's hour. */
  method CountByHour(entries: seq<Entry>) returns (counts: seq<HourCount>)
    ensures |counts| == 24
    ensures forall h: Hour :: counts[h] == Bucket(entries, h)
  {
    var hourCounts := new HourCount[24];
    for i := 0 to 24
      invariant forall h | 0 <= h < i :: hourCounts[h] == EmptyBucket
    {
      hourCounts[i] := EmptyBucket;
    }
    var j := 0;
    while j < |entries|
      invariant 0 <= j <= |entries|
      invariant forall h: Hour :: hourCounts[h] == Bucket(entries[..j], h)
    {
      var entry := entries[j];
      assert entries[..j + 1][..j] == entries[..j];
      if entry.hour.Some? {
        var hour := entry.hour.value;
        var data := hourCounts[hour];
        data := data.(total := data.total + 1);
        match FlagOf(entry) {
          case Red => data := data.(red := data.red + 1);
          case Green => data := data.(green := data.green + 1);
          case Neutral => data := data.(neutral := data.neutral + 1);
          case Unknown(raw) =>
            if raw == "total" {
              data := data.(total := data.total + 1);
            }
        }
        hourCounts[hour] := data;
      }
      j := j + 1;
    }
    assert entries[..|entries|] == entries;
    counts := hourCounts[..];
  }

  /** Which ratio an hour is ranked by. */
  datatype Side = GreenSide | RedSide

  function Hits(c: HourCount, side: Side): nat
  {
    match side
    case GreenSide => c.green
    case RedSide => c.red
  }

  /** Only hours with at least two entries are ranked. */
  predicate Considered(c: HourCount)
  {
    c.total >= 2
  }

  /** The ratio of `a` on `side` is strictly below that of `b`, compared by
      cross-multiplication instead of division. */
  predicate Below(a: HourCount, side: Side, b: HourCount)
  {
    Hits(a, side) * b.total < Hits(b, side) * a.total
  }

  /** Hour `h` is the one the selection loop ends on: a ranked hour with a
      positive ratio, strictly higher than every ranked hour before it and
      at least as high as every ranked hour after it. */
  predicate IsLeader(counts: seq<HourCount>, side: Side, h: nat)
  {
    && h < |counts| && Considered(counts[h]) && Hits(counts[h], side) > 0
    && (forall j | 0 <= j < h && Considered(counts[j]) :: Below(counts[j], side, counts[h]))
    && (forall j | h < j < |counts| && Considered(counts[j]) :: !Below(counts[h], side, counts[j]))
  }

  /** No ranked hour has a positive ratio, so the hour stays `null`. */
  predicate NoLeader(counts: seq<HourCount>, side: Side)
  {
    forall j | 0 <= j < |counts| && Considered(counts[j]) :: Hits(counts[j], side) == 0
  }

  /** On ties the earliest hour wins, so at most one hour leads. */
  lemma LeaderUnique(counts: seq<HourCount>, side: Side, h1: nat, h2: nat)
    requires IsLeader(counts, side, h1) && IsLeader(counts, side, h2)
    ensures h1 == h2
  {
  }

  /** Having no leader and having one exclude each other. */
  lemma LeaderExcludesNone(counts: seq<HourCount>, side: Side, h: nat)
    requires IsLeader(counts, side, h)
    ensures !NoLeader(counts, side)
  {
    assert Considered(counts[h]) && Hits(counts[h], side) > 0;
  }

  /** The loop variables `bestHour` and `highestGreenRatio` (or `worstHour`
      and `highestRedRatio`): the hour chosen so far and its ratio as a
      fraction, 0/1 while no hour is chosen. */
  datatype Leader = Leader(hour: Option<Hour>, hits: nat, total: nat)

  const NoHour := Leader(None, 0, 1)

  /** What the loop has established after looking at the first `i` hours. */
  predicate LeadsFirst(counts: seq<HourCount>, side: Side, i: nat, l: Leader)
  {
    && i <= |counts| && l.total > 0
    && (l.hour.None? ==> l == NoHour && forall j | 0 <= j < i && Considered(counts[j]) :: Hits(counts[j], side) == 0)
    && (l.hour.Some? ==>
          var h := l.hour.value;
          && h < i && Considered(counts[h]) && Hits(counts[h], side) > 0
          && l.hits == Hits(counts[h], side) && l.total == counts[h].total
          && (forall j | 0 <= j < h && Considered(counts[j]) :: Below(counts[j], side, counts[h]))
          && (forall j | h < j < i && Considered(counts[j]) :: !Below(counts[h], side, counts[j])))
  }

  lemma MulLeft(a: int, b: int, c: int)
    requires c > 0 && a <= b
    ensures c * a <= c * b
  {
  }

  lemma MulLeftStrict(a: int, b: int, c: int)
    requires c > 0 && a < b
    ensures c * a < c * b
  {
  }

  /** `p1/q1 <= p2/q2 < p3/q3` gives `p1/q1 < p3/q3`, all by
      cross-multiplication with positive denominators. */
  lemma CrossLessTrans(p1: nat, q1: nat, p2: nat, q2: nat, p3: nat, q3: nat)
    requires q1 > 0 && q2 > 0 && q3 > 0
    requires p1 * q2 <= p2 * q1 && p2 * q3 < p3 * q2
    ensures p1 * q3 < p3 * q1
  {
    MulLeft(p1 * q2, p2 * q1, q3);
    MulLeftStrict(p2 * q3, p3 * q2, q1);
    assert q3 * (p1 * q2) == q2 * (p1 * q3);
    assert q3 * (p2 * q1) == q1 * (p2 * q3);
    assert q1 * (p3 * q2) == q2 * (p3 * q1);
    if p1 * q3 >= p3 * q1 {
      MulLeft(p3 * q1, p1 * q3, q2);
    }
  }

  lemma PositiveProduct(a: nat, b: nat)
    requires a > 0 && b > 0
    ensures a * b > 0
  {
  }

  /** One round of the selection loop keeps `LeadsFirst`: a ranked hour whose
      ratio beats the current one takes over, anything else keeps it. */
  lemma LeadsStep(counts: seq<HourCount>, side: Side, i: nat, l: Leader)
    requires i < |counts| && LeadsFirst(counts, side, i, l)
    requires |counts| <= 24
    ensures var c := counts[i];
            LeadsFirst(counts, side, i + 1,
              if Considered(c) && Hits(c, side) * l.total > l.hits * c.total
              then Leader(Some(i), Hits(c, side), c.total) else l)
  {
    var c := counts[i];
    if Considered(c) && Hits(c, side) * l.total > l.hits * c.total {
      forall j | 0 <= j < i && Considered(counts[j]) ensures Below(counts[j], side, c) {
        var cj := counts[j];
        if l.hour.None? {
          PositiveProduct(Hits(c, side), cj.total);
        } else {
          var ch := counts[l.hour.value];
          if j < l.hour.value {
            assert Below(cj, side, ch);
            CrossLessTrans(Hits(cj, side), cj.total, Hits(ch, side), ch.total, Hits(c, side), c.total);
          } else if j > l.hour.value {
            assert !Below(ch, side, cj);
            CrossLessTrans(Hits(cj, side), cj.total, Hits(ch, side), ch.total, Hits(c, side), c.total);
          }
        }
      }
    }
  }

  /** The selection loop of `getTimePatterns` over the 24 buckets, for the
      best (green) and the worst (red) hour at once. */
  method SelectHours(counts: seq<HourCount>) returns (best: Leader, worst: Leader)
    requires |counts| == 24
    ensures best.hour.None? <==> NoLeader(counts, GreenSide)
    ensures best.hour.Some? ==> IsLeader(counts, GreenSide, best.hour.value)
    ensures worst.hour.None? <==> NoLeader(counts, RedSide)
    ensures worst.hour.Some? ==> IsLeader(counts, RedSide, worst.hour.value)
    ensures LeadsFirst(counts, GreenSide, 24, best) && LeadsFirst(counts, RedSide, 24, worst)
  {
    best, worst := NoHour, NoHour;
    var i := 0;
    while i < 24
      invariant 0 <= i <= 24
      invariant LeadsFirst(counts, GreenSide, i, best) && LeadsFirst(counts, RedSide, i, worst)
    {
      LeadsStep(counts, GreenSide, i, best);
      LeadsStep(counts, RedSide, i, worst);
      var data := counts[i];
      if data.total >= 2 {
        if data.green * best.total > best.hits * data.total {
          best := Leader(Some(i), data.green, data.total);
        }
        if data.red * worst.total > worst.hits * data.total {
          worst := Leader(Some(i), data.red, data.total);
        }
      }
      i := i + 1;
    }
    if best.hour.Some? {
      LeaderExcludesNone(counts, GreenSide, best.hour.value);
    }
    if worst.hour.Some? {
      LeaderExcludesNone(counts, RedSide, worst.hour.value);
    }
  }

  /** The hour as a 12-hour clock shows it. */
  function DisplayHour(h: Hour): (d: nat)
    ensures 1 <= d <= 12
    ensures d % 12 == h % 12
  {
    if h == 0 then 12 else if h > 12 then h - 12 else h
  }

  function AmPm(h: Hour): (r: string)
    ensures |r| == 2
    ensures r == "AM" <==> h < 12
    ensures r == "PM" <==> h >= 12
  {
    if h >= 12 then "PM" else "AM"
  }

  const NotEnoughData := "Not enough data"

  /** `formatHour`: `null` gives "Not enough data", an hour gives its
      12-hour rendering such as "12:00 AM" or "1:00 PM". */
  function FormatHour(hour: Option<Hour>): (r: string)
    ensures hour.None? <==> r == NotEnoughData
    ensures hour.Some? ==> 7 <= |r| <= 8 && r[|r| - 2..] == AmPm(hour.value)
    ensures hour.Some? ==> r[..|r| - 6] == NatToString(DisplayHour(hour.value))
    ensures hour.Some? ==> r[|r| - 6..|r| - 2] == ":00 "
  {
    match hour
    case None => NotEnoughData
    case Some(h) =>
      var d := DisplayHour(h);
      var digits := NatToString(d);
      assert |digits| <= 2 by {
        if d >= 10 {
          assert digits == NatToString(d / 10) + [DigitChar(d % 10)];
        }
      }
      digits + ":00 " + AmPm(h)
  }

  /** Different hours are shown differently, and no hour is shown as
      "Not enough data". */
  lemma FormatHourInjective(a: Option<Hour>, b: Option<Hour>)
    requires FormatHour(a) == FormatHour(b)
    ensures a == b
  {
    if a.Some? && b.Some? {
      var s := FormatHour(a);
      NatToStringInjective(DisplayHour(a.value), DisplayHour(b.value));
      assert AmPm(a.value) == s[|s| - 2..] == AmPm(b.value);
    }
  }

  /** Midnight and noon are shown as 12, */
  lemma FormatHourTwelve()
    ensures FormatHour(Some(0)) == "12:00 AM"
    ensures FormatHour(Some(12)) == "12:00 PM"
  {
    assert NatToString(12) == NatToString(1) + [DigitChar(2)];
  }

  /** and the other hours without a leading zero. */
  lemma FormatHourSingleDigit()
    ensures FormatHour(Some(13)) == "1:00 PM"
    ensures FormatHour(Some(9)) == "9:00 AM"
  {
  }

  /** `a`'s green ratio exceeds `b`'s by more than 0.2:
      `ag/at > bg/bt + 0.2`, multiplied out by `5 * at * bt`. */
  predicate BetterBy(ag: nat, at: nat, bg: nat, bt: nat)
  {
    5 * ag * bt > 5 * bg * at + at * bt
  }

  /** Two groups cannot each beat the other by more than 0.2, so the
      `else if` of each comparison rule never hides a second line. */
  lemma BetterByAsymmetric(ag: nat, at: nat, bg: nat, bt: nat)
    ensures !(BetterBy(ag, at, bg, bt) && BetterBy(bg, bt, ag, at))
  {
    assert at * bt == bt * at;
    assert 5 * ag * bt == 5 * (ag * bt) && 5 * bg * at == 5 * (bg * at);
  }

  function IsMorning(e: Entry): bool
  {
    e.hour.Some? && 6 <= e.hour.value < 12
  }

  function IsEvening(e: Entry): bool
  {
    e.hour.Some? && 18 <= e.hour.value < 24
  }

  function IsWeekend(dayOf: int -> int): Entry -> bool
  {
    (e: Entry) => dayOf(e.timestamp) == 0 || dayOf(e.timestamp) == 6
  }

  function IsWeekday(dayOf: int -> int): Entry -> bool
  {
    (e: Entry) => 1 <= dayOf(e.timestamp) <= 5
  }

  const BestPrefix := "Your best conversations happen around "
  const BestSuffix := " \U{2728}"
  const WorstPrefix := "Conflicts tend to occur around "
  const WorstSuffix := " \U{26A0}\U{FE0F}"

  function BestInsight(h: Hour): string
  {
    BestPrefix + FormatHour(Some(h)) + BestSuffix
  }

  function WorstInsight(h: Hour): string
  {
    WorstPrefix + FormatHour(Some(h)) + WorstSuffix
  }

  const MorningInsight := "You tend to have better interactions in the morning \U{1F305}"
  const EveningInsight := "Evening conversations tend to go better for you \U{1F319}"
  const WeekendInsight := "Your relationship is healthier on weekends \U{1F389}"
  const WeekdayInsight := "You connect better during weekdays \U{1F4BC}"
  const DefaultInsight := "Keep journaling to discover your patterns! \U{1F4CA}"

  /** The leader on `side` exists and its ratio passes the threshold
      (0.6 for green, 0.5 for red, multiplied out). */
  predicate StrongLeader(counts: seq<HourCount>, side: Side)
  {
    exists h | 0 <= h < |counts| ::
      IsLeader(counts, side, h)
      && (match side
          case GreenSide => 5 * counts[h].green > 3 * counts[h].total
          case RedSide => 2 * counts[h].red > counts[h].total)
  }

  /** The number of hour-based lines: one per side whose leader is strong. */
  function LeaderLineCount(counts: seq<HourCount>): nat
  {
    (if StrongLeader(counts, GreenSide) then 1 else 0) + (if StrongLeader(counts, RedSide) then 1 else 0)
  }

  /** Morning entries go better than evening ones by more than 0.2, with
      at least three of each. */
  predicate MorningBetter(es: seq<Entry>)
  {
    var m := Filter(es, IsMorning);
    var ev := Filter(es, IsEvening);
    |m| >= 3 && |ev| >= 3 && BetterBy(CountFlag(m, Green), |m|, CountFlag(ev, Green), |ev|)
  }

  predicate EveningBetter(es: seq<Entry>)
  {
    var m := Filter(es, IsMorning);
    var ev := Filter(es, IsEvening);
    |m| >= 3 && |ev| >= 3 && BetterBy(CountFlag(ev, Green), |ev|, CountFlag(m, Green), |m|)
  }

  /** With at least ten entries, weekend entries go better than weekday
      ones by more than 0.2, with at least three of each. */
  predicate WeekendBetter(es: seq<Entry>, dayOf: int -> int)
  {
    var we := Filter(es, IsWeekend(dayOf));
    var wd := Filter(es, IsWeekday(dayOf));
    |es| >= 10 && |we| >= 3 && |wd| >= 3 && BetterBy(CountFlag(we, Green), |we|, CountFlag(wd, Green), |wd|)
  }

  predicate WeekdayBetter(es: seq<Entry>, dayOf: int -> int)
  {
    var we := Filter(es, IsWeekend(dayOf));
    var wd := Filter(es, IsWeekday(dayOf));
    |es| >= 10 && |we| >= 3 && |wd| >= 3 && BetterBy(CountFlag(wd, Green), |wd|, CountFlag(we, Green), |we|)
  }

  /** The morning/evening comparison adds a line. */
  predicate MorningEveningFires(es: seq<Entry>)
  {
    MorningBetter(es) || EveningBetter(es)
  }

  /** The weekend/weekday comparison adds a line. */
  predicate WeekendFires(es: seq<Entry>, dayOf: int -> int)
  {
    WeekendBetter(es, dayOf) || WeekdayBetter(es, dayOf)
  }

  /** The number of comparison lines: one per comparison that fires. */
  function ComparisonLineCount(es: seq<Entry>, dayOf: int -> int): nat
  {
    (if MorningEveningFires(es) then 1 else 0) + (if WeekendFires(es, dayOf) then 1 else 0)
  }

  /** Each comparison names one winner at most. */
  lemma ComparisonsExclusive(es: seq<Entry>, dayOf: int -> int)
    ensures !(MorningBetter(es) && EveningBetter(es))
    ensures !(WeekendBetter(es, dayOf) && WeekdayBetter(es, dayOf))
  {
    var m := Filter(es, IsMorning);
    var ev := Filter(es, IsEvening);
    BetterByAsymmetric(CountFlag(m, Green), |m|, CountFlag(ev, Green), |ev|);
    var we := Filter(es, IsWeekend(dayOf));
    var wd := Filter(es, IsWeekday(dayOf));
    BetterByAsymmetric(CountFlag(we, Green), |we|, CountFlag(wd, Green), |wd|);
  }

  datatype TimePatterns = TimePatterns(bestTime: string, worstTime: string, insights: seq<string>)

  /** Turns a leader into the threshold test of the insight rules. */
  lemma StrongLeaderOf(counts: seq<HourCount>, side: Side, l: Leader)
    requires |counts| == 24
    requires l.hour.None? <==> NoLeader(counts, side)
    requires l.hour.Some? ==> IsLeader(counts, side, l.hour.value)
    requires LeadsFirst(counts, side, 24, l)
    ensures StrongLeader(counts, side) <==>
            l.hour.Some? && (match side
                             case GreenSide => 5 * l.hits > 3 * l.total
                             case RedSide => 2 * l.hits > l.total)
    ensures forall h: Hour | IsLeader(counts, side, h) :: l.hour == Some(h)
  {
    forall h: Hour | IsLeader(counts, side, h) ensures l.hour == Some(h) {
      LeaderExcludesNone(counts, side, h);
      LeaderUnique(counts, side, h, l.hour.value);
    }
    if StrongLeader(counts, side) {
      var h :| 0 <= h < |counts| && IsLeader(counts, side, h)
        && (match side
            case GreenSide => 5 * counts[h].green > 3 * counts[h].total
            case RedSide => 2 * counts[h].red > counts[h].total);
      LeaderExcludesNone(counts, side, h);
      LeaderUnique(counts, side, h, l.hour.value);
    }
  }

  /** The lengths that tell the insight lines apart: an hour-based line is
      47 or 48 characters (best) or 41 or 42 (worst), the fixed lines 53,
      49, 44, 36 and 44. */
  lemma InsightLengths(h: Hour)
    ensures 47 <= |BestInsight(h)| <= 48 && 41 <= |WorstInsight(h)| <= 42
    ensures |MorningInsight| == 53 && |EveningInsight| == 49 && |WeekendInsight| == 44
    ensures |WeekdayInsight| == 36 && |DefaultInsight| == 44
  {
    assert |BestPrefix| == 38 && |BestSuffix| == 2;
    assert |WorstPrefix| == 31 && |WorstSuffix| == 3;
  }

  /** One of the four lines the comparison rules add. */
  predicate IsComparisonLine(s: string)
  {
    s == MorningInsight || s == EveningInsight || s == WeekendInsight || s == WeekdayInsight
  }

  /** The five fixed lines are pairwise different. */
  lemma FixedLinesDistinct()
    ensures MorningInsight != EveningInsight && MorningInsight != WeekendInsight
    ensures MorningInsight != WeekdayInsight && EveningInsight != WeekendInsight
    ensures EveningInsight != WeekdayInsight && WeekendInsight != WeekdayInsight
    ensures !IsComparisonLine(DefaultInsight)
  {
    InsightLengths(0);
    assert DefaultInsight[0] != WeekendInsight[0];
  }

  /** An hour-based line is neither a fixed line nor a line of the other
      side. */
  lemma LeaderLinesNotFixed(h: Hour, k: Hour)
    ensures !IsComparisonLine(BestInsight(h)) && BestInsight(h) != DefaultInsight
    ensures !IsComparisonLine(WorstInsight(h)) && WorstInsight(h) != DefaultInsight
    ensures BestInsight(h) != WorstInsight(k)
  {
    InsightLengths(h);
    InsightLengths(k);
  }

  /** The best-hour line names its hour: different hours give different
      lines, and likewise for the worst-hour line. */
  lemma LeaderLinesInjective(h: Hour, k: Hour)
    ensures BestInsight(h) == BestInsight(k) ==> h == k
    ensures WorstInsight(h) == WorstInsight(k) ==> h == k
  {
    var fh, fk := FormatHour(Some(h)), FormatHour(Some(k));
    if BestInsight(h) == BestInsight(k) {
      var s := BestInsight(h);
      assert s[|BestPrefix|..|s| - |BestSuffix|] == fh;
      assert BestInsight(k)[|BestPrefix|..|s| - |BestSuffix|] == fk;
      FormatHourInjective(Some(h), Some(k));
    }
    if WorstInsight(h) == WorstInsight(k) {
      var s := WorstInsight(h);
      assert s[|WorstPrefix|..|s| - |WorstSuffix|] == fh;
      assert WorstInsight(k)[|WorstPrefix|..|s| - |WorstSuffix|] == fk;
      FormatHourInjective(Some(h), Some(k));
    }
  }

  /** The best hour's ratio is above 0.6, and the worst hour's above 0.5. */
  predicate StrongBest(best: Leader)
  {
    best.hour.Some? && 5 * best.hits > 3 * best.total
  }

  predicate StrongWorst(worst: Leader)
  {
    worst.hour.Some? && 2 * worst.hits > worst.total
  }

  /** The hour lines for an optional best hour `b` and worst hour `w`. */
  function HourLineList(b: Option<Hour>, w: Option<Hour>): seq<string>
  {
    (if b.Some? then [BestInsight(b.value)] else []) + (if w.Some? then [WorstInsight(w.value)] else [])
  }

  /** A line is in the list exactly when it is one of the lines built. */
  lemma HourLineListIn(b: Option<Hour>, w: Option<Hour>, s: string)
    ensures s in HourLineList(b, w) <==>
              (b.Some? && s == BestInsight(b.value)) || (w.Some? && s == WorstInsight(w.value))
  {
  }

  /** The best-hour line of `h` is in the list exactly when `h` is the best
      hour it was built for, */
  lemma BestLineIn(b: Option<Hour>, w: Option<Hour>, h: Hour)
    ensures BestInsight(h) in HourLineList(b, w) <==> b == Some(h)
  {
    HourLineListIn(b, w, BestInsight(h));
    if b.Some? { LeaderLinesInjective(b.value, h); }
    if w.Some? { LeaderLinesNotFixed(h, w.value); }
  }

  /** likewise the worst-hour line, */
  lemma WorstLineIn(b: Option<Hour>, w: Option<Hour>, h: Hour)
    ensures WorstInsight(h) in HourLineList(b, w) <==> w == Some(h)
  {
    HourLineListIn(b, w, WorstInsight(h));
    if b.Some? { LeaderLinesNotFixed(b.value, h); }
    if w.Some? { LeaderLinesInjective(w.value, h); }
  }

  /** and no fixed line is in the list. */
  lemma HourLineListNotFixed(b: Option<Hour>, w: Option<Hour>)
    ensures forall s | s in HourLineList(b, w) :: !IsComparisonLine(s) && s != DefaultInsight
  {
    if b.Some? { LeaderLinesNotFixed(b.value, b.value); }
    if w.Some? { LeaderLinesNotFixed(w.value, w.value); }
    forall s | s in HourLineList(b, w) ensures !IsComparisonLine(s) && s != DefaultInsight {
      HourLineListIn(b, w, s);
    }
  }

  /** The two hour rules of `getTimePatterns`: the best hour's line when
      more than 60% of its entries are green, then the worst hour's line
      when more than half of its entries are red. */
  method LeaderInsights(best: Leader, worst: Leader) returns (lines: seq<string>)
    ensures |lines| == (if StrongBest(best) then 1 else 0) + (if StrongWorst(worst) then 1 else 0)
    ensures StrongBest(best) ==> lines[0] == BestInsight(best.hour.value)
    ensures StrongWorst(worst) ==> lines[|lines| - 1] == WorstInsight(worst.hour.value)
    ensures forall h: Hour :: BestInsight(h) in lines <==> StrongBest(best) && best.hour == Some(h)
    ensures forall h: Hour :: WorstInsight(h) in lines <==> StrongWorst(worst) && worst.hour == Some(h)
    ensures forall s | s in lines :: !IsComparisonLine(s) && s != DefaultInsight
  {
    lines := [];
    if StrongBest(best) {
      lines := lines + [BestInsight(best.hour.value)];
    }
    if StrongWorst(worst) {
      lines := lines + [WorstInsight(worst.hour.value)];
    }
    var b := if StrongBest(best) then best.hour else None;
    var w := if StrongWorst(worst) then worst.hour else None;
    assert lines == HourLineList(b, w);
    forall h: Hour
      ensures BestInsight(h) in lines <==> StrongBest(best) && best.hour == Some(h)
      ensures WorstInsight(h) in lines <==> StrongWorst(worst) && worst.hour == Some(h)
    {
      BestLineIn(b, w, h);
      WorstLineIn(b, w, h);
    }
    HourLineListNotFixed(b, w);
  }

  /** The two comparison rules of `getTimePatterns`: morning against
      evening, and (with at least ten entries) weekend against weekday.
      Each adds the line of its winner, if there is one, in that order. */
  method ComparisonInsights(entries: seq<Entry>, dayOf: int -> int) returns (extra: seq<string>)
    ensures |extra| == ComparisonLineCount(entries, dayOf)
    ensures MorningEveningFires(entries) ==>
              extra[0] == (if MorningBetter(entries) then MorningInsight else EveningInsight)
    ensures WeekendFires(entries, dayOf) ==>
              extra[|extra| - 1] == (if WeekendBetter(entries, dayOf) then WeekendInsight else WeekdayInsight)
    ensures MorningInsight in extra <==> MorningBetter(entries)
    ensures EveningInsight in extra <==> EveningBetter(entries)
    ensures WeekendInsight in extra <==> WeekendBetter(entries, dayOf)
    ensures WeekdayInsight in extra <==> WeekdayBetter(entries, dayOf)
    ensures forall s | s in extra :: IsComparisonLine(s)
  {
    ComparisonsExclusive(entries, dayOf);
    FixedLinesDistinct();
    extra := [];
    var morningEntries := Filter(entries, IsMorning);
    var eveningEntries := Filter(entries, IsEvening);
    if |morningEntries| >= 3 && |eveningEntries| >= 3 {
      var mg := CountFlag(morningEntries, Green);
      var eg := CountFlag(eveningEntries, Green);
      if BetterBy(mg, |morningEntries|, eg, |eveningEntries|) {
        extra := extra + [MorningInsight];
      } else if BetterBy(eg, |eveningEntries|, mg, |morningEntries|) {
        extra := extra + [EveningInsight];
      }
    }
    if |entries| >= 10 {
      var weekendEntries := Filter(entries, IsWeekend(dayOf));
      var weekdayEntries := Filter(entries, IsWeekday(dayOf));
      if |weekendEntries| >= 3 && |weekdayEntries| >= 3 {
        var weg := CountFlag(weekendEntries, Green);
        var wdg := CountFlag(weekdayEntries, Green);
        if BetterBy(weg, |weekendEntries|, wdg, |weekdayEntries|) {
          extra := extra + [WeekendInsight];
        } else if BetterBy(wdg, |weekdayEntries|, weg, |weekendEntries|) {
          extra := extra + [WeekdayInsight];
        }
      }
    }
  }

  /** The hour lines of `getTimePatterns` for the hourly buckets `counts`:
      one line per side whose leader passes the threshold, naming that
      leader's hour, the best-hour line first and the worst-hour line last,
      and no fixed line among them. */
  predicate HourLines(lines: seq<string>, counts: seq<HourCount>)
  {
    && |lines| == LeaderLineCount(counts)
    && (forall h: Hour :: BestInsight(h) in lines <==>
          IsLeader(counts, GreenSide, h) && StrongLeader(counts, GreenSide))
    && (forall h: Hour :: WorstInsight(h) in lines <==>
          IsLeader(counts, RedSide, h) && StrongLeader(counts, RedSide))
    && (forall h: Hour | IsLeader(counts, GreenSide, h) && StrongLeader(counts, GreenSide) ::
          lines[0] == BestInsight(h))
    && (forall h: Hour | IsLeader(counts, RedSide, h) && StrongLeader(counts, RedSide) ::
          lines[|lines| - 1] == WorstInsight(h))
    && (forall s | s in lines :: !IsComparisonLine(s) && s != DefaultInsight)
  }

  /** The comparison lines of `getTimePatterns` for the entries `es`: one
      line per comparison that has a winner, naming the winner, the
      morning/evening line before the weekend/weekday line. */
  predicate ComparisonLines(extra: seq<string>, es: seq<Entry>, dayOf: int -> int)
  {
    && |extra| == ComparisonLineCount(es, dayOf)
    && (MorningEveningFires(es) ==>
          extra[0] == (if MorningBetter(es) then MorningInsight else EveningInsight))
    && (WeekendFires(es, dayOf) ==>
          extra[|extra| - 1] == (if WeekendBetter(es, dayOf) then WeekendInsight else WeekdayInsight))
    && (MorningInsight in extra <==> MorningBetter(es))
    && (EveningInsight in extra <==> EveningBetter(es))
    && (WeekendInsight in extra <==> WeekendBetter(es, dayOf))
    && (WeekdayInsight in extra <==> WeekdayBetter(es, dayOf))
    && (forall s | s in extra :: IsComparisonLine(s))
  }

  /** The lines of the two hour rules, restated in terms of the buckets
      once the scan's leaders are known to be the buckets' leaders. */
  lemma HourLinesOf(counts: seq<HourCount>, best: Leader, worst: Leader, lines: seq<string>)
    requires |counts| == 24
    requires StrongLeader(counts, GreenSide) <==> StrongBest(best)
    requires StrongLeader(counts, RedSide) <==> StrongWorst(worst)
    requires forall h: Hour | IsLeader(counts, GreenSide, h) :: best.hour == Some(h)
    requires forall h: Hour | IsLeader(counts, RedSide, h) :: worst.hour == Some(h)
    requires |lines| == (if StrongBest(best) then 1 else 0) + (if StrongWorst(worst) then 1 else 0)
    requires StrongBest(best) ==> lines[0] == BestInsight(best.hour.value)
    requires StrongWorst(worst) ==> lines[|lines| - 1] == WorstInsight(worst.hour.value)
    requires forall h: Hour :: BestInsight(h) in lines <==> StrongBest(best) && best.hour == Some(h)
    requires forall h: Hour :: WorstInsight(h) in lines <==> StrongWorst(worst) && worst.hour == Some(h)
    requires forall s | s in lines :: !IsComparisonLine(s) && s != DefaultInsight
    ensures HourLines(lines, counts)
  {
    if StrongLeader(counts, GreenSide) {
      var g :| 0 <= g < |counts| && IsLeader(counts, GreenSide, g)
        && 5 * counts[g].green > 3 * counts[g].total;
      assert best.hour == Some(g);
    }
    if StrongLeader(counts, RedSide) {
      var g :| 0 <= g < |counts| && IsLeader(counts, RedSide, g)
        && 2 * counts[g].red > counts[g].total;
      assert worst.hour == Some(g);
    }
  }

  /** The insight lines of `getTimePatterns` for the hourly buckets `counts`
      of `es`: the hour lines followed by the comparison lines, or the
      default line alone when no rule fires. */
  predicate InsightsFor(ins: seq<string>, counts: seq<HourCount>, es: seq<Entry>, dayOf: int -> int)
  {
    var n := LeaderLineCount(counts) + ComparisonLineCount(es, dayOf);
    && |ins| == (if n == 0 then 1 else n)
    && (n == 0 <==> ins == [DefaultInsight])
    && (n > 0 ==> HourLines(ins[..LeaderLineCount(counts)], counts)
                  && ComparisonLines(ins[LeaderLineCount(counts)..], es, dayOf))
  }

  /** The hour lines followed by the comparison lines, or the default line
      when both are empty, are the insight lines the rules call for. */
  lemma InsightsOfParts(lines: seq<string>, extra: seq<string>, counts: seq<HourCount>,
                        es: seq<Entry>, dayOf: int -> int)
    requires HourLines(lines, counts) && ComparisonLines(extra, es, dayOf)
    ensures InsightsFor(if |lines + extra| > 0 then lines + extra else [DefaultInsight], counts, es, dayOf)
  {
    assert (lines + extra)[..|lines|] == lines && (lines + extra)[|lines|..] == extra;
    if lines != [] {
      assert lines[0] in lines;
    } else if extra != [] {
      FixedLinesDistinct();
      assert extra[0] in extra;
    }
  }

  /** The line of a strong leading hour, and of no other hour, is among the
      insights. */
  lemma HourLinesMembership(ins: seq<string>, counts: seq<HourCount>, es: seq<Entry>, dayOf: int -> int)
    requires InsightsFor(ins, counts, es, dayOf)
    ensures forall h: Hour :: BestInsight(h) in ins <==>
              IsLeader(counts, GreenSide, h) && StrongLeader(counts, GreenSide)
    ensures forall h: Hour :: WorstInsight(h) in ins <==>
              IsLeader(counts, RedSide, h) && StrongLeader(counts, RedSide)
  {
    var k := LeaderLineCount(counts);
    if k + ComparisonLineCount(es, dayOf) == 0 {
      forall h: Hour ensures BestInsight(h) !in ins && WorstInsight(h) !in ins {
        LeaderLinesNotFixed(h, h);
      }
    } else {
      var lines, extra := ins[..k], ins[k..];
      assert ins == lines + extra;
      forall h: Hour
        ensures BestInsight(h) in ins <==> BestInsight(h) in lines
        ensures WorstInsight(h) in ins <==> WorstInsight(h) in lines
      {
        LeaderLinesNotFixed(h, h);
      }
    }
  }

  /** The line of each comparison's winner is among the insights exactly
      when that comparison has that winner. */
  lemma ComparisonLinesMembership(ins: seq<string>, counts: seq<HourCount>, es: seq<Entry>, dayOf: int -> int)
    requires InsightsFor(ins, counts, es, dayOf)
    ensures MorningInsight in ins <==> MorningBetter(es)
    ensures EveningInsight in ins <==> EveningBetter(es)
    ensures WeekendInsight in ins <==> WeekendBetter(es, dayOf)
    ensures WeekdayInsight in ins <==> WeekdayBetter(es, dayOf)
  {
    var k := LeaderLineCount(counts);
    FixedLinesDistinct();
    if k + ComparisonLineCount(es, dayOf) > 0 {
      var lines, extra := ins[..k], ins[k..];
      assert ins == lines + extra;
      assert IsComparisonLine(MorningInsight) && IsComparisonLine(EveningInsight);
      assert IsComparisonLine(WeekendInsight) && IsComparisonLine(WeekdayInsight);
      assert MorningInsight !in lines && EveningInsight !in lines;
      assert WeekendInsight !in lines && WeekdayInsight !in lines;
    }
  }

  /** The default line is among the insights exactly when no rule fires. */
  lemma DefaultLineMembership(ins: seq<string>, counts: seq<HourCount>, es: seq<Entry>, dayOf: int -> int)
    requires InsightsFor(ins, counts, es, dayOf)
    ensures DefaultInsight in ins <==> LeaderLineCount(counts) + ComparisonLineCount(es, dayOf) == 0
  {
    var k := LeaderLineCount(counts);
    if k + ComparisonLineCount(es, dayOf) > 0 {
      FixedLinesDistinct();
      forall i | 0 <= i < |ins| ensures ins[i] != DefaultInsight {
        if i < k {
          assert ins[i] == ins[..k][i];
        } else {
          assert ins[i] == ins[k..][i - k];
        }
      }
    }
  }

  /** `getTimePatterns`, with `dayOf` standing for `getDay` on a timestamp.
      No entries gives `null`.  Otherwise the best and worst times are the
      leading hours (or "Not enough data"), and the insight lines are those
      the five rules call for, in their order. */
  method GetTimePatterns(entries: seq<Entry>, dayOf: int -> int) returns (r: Option<TimePatterns>)
    ensures entries == [] <==> r.None?
    ensures r.Some? ==> var counts := Buckets(entries);
            && (r.value.bestTime == NotEnoughData <==> NoLeader(counts, GreenSide))
            && (forall h: Hour | IsLeader(counts, GreenSide, h) :: r.value.bestTime == FormatHour(Some(h)))
            && (r.value.worstTime == NotEnoughData <==> NoLeader(counts, RedSide))
            && (forall h: Hour | IsLeader(counts, RedSide, h) :: r.value.worstTime == FormatHour(Some(h)))
    ensures r.Some? ==> InsightsFor(r.value.insights, Buckets(entries), entries, dayOf)
  {
    if |entries| == 0 {
      return None;
    }
    var counts := CountByHour(entries);
    assert counts == Buckets(entries);
    var best, worst := SelectHours(counts);
    StrongLeaderOf(counts, GreenSide, best);
    StrongLeaderOf(counts, RedSide, worst);

    var insights := LeaderInsights(best, worst);
    var extra := ComparisonInsights(entries, dayOf);
    HourLinesOf(counts, best, worst, insights);
    assert ComparisonLines(extra, entries, dayOf);
    InsightsOfParts(insights, extra, counts, entries, dayOf);
    insights := insights + extra;
    r := Some(TimePatterns(
      FormatHour(best.hour),
      FormatHour(worst.hour),
      if |insights| > 0 then insights else [DefaultInsight]));
  }
}
