/** The journal's own computations over its list of entries: submitting an
    entry, the flag statistics, the calendar day colour and the weekly
    report. */
module Journal {
  import opened Wrappers
  import opened Text
  import opened Entries
  import opened Classifier

  /** What the browser supplies when an entry is submitted: `Date.now()`, the
      locale renderings of the date and the time, and `getHours()`. */
  datatype Clock = Clock(now: int, date: string, time: string, hour: Hour)

  function NewEntry(text: string, analysis: Analysis, clock: Clock): Entry
  {
    Entry(clock.now, clock.date, clock.time, Some(clock.hour), text, analysis, clock.now)
  }

  /** `handleSubmit`: a blank text changes nothing; otherwise the text is
      analysed (remote first, keyword classifier on failure) and the new entry
      is put in front of the existing ones. */
  function Submit(entries: seq<Entry>, text: string, remote: Result<Analysis, string>, clock: Clock): (r: seq<Entry>)
    ensures IsBlank(text) ==> r == entries
    ensures !IsBlank(text) ==> |r| == |entries| + 1 && r[1..] == entries
    ensures !IsBlank(text) ==> r[0].text == text && r[0].analysis == AnalyzeEntry(text, remote)
                               && r[0].id == clock.now && r[0].hour == Some(clock.hour)
    ensures !IsBlank(text) ==> r[0].timestamp == clock.now && r[0].date == clock.date && r[0].time == clock.time
  {
    if IsBlank(text) then entries
    else [NewEntry(text, AnalyzeEntry(text, remote), clock)] + entries
  }

  datatype Stats = Stats(red: nat, green: nat, neutral: nat, total: nat)

  /** `getStats`: the three flag counts and the number of entries. */
  function GetStats(entries: seq<Entry>): (r: Stats)
    ensures r.total == |entries|
    ensures r.red + r.green + r.neutral <= r.total
    ensures (forall i | 0 <= i < |entries| :: IsKnownFlag(FlagOf(entries[i])))
            <==> r.red + r.green + r.neutral == r.total
  {
    CountFlagSum(entries);
    Stats(CountFlag(entries, Red), CountFlag(entries, Green), CountFlag(entries, Neutral), |entries|)
  }

  /** Submitting a non-blank entry adds one to the total and one to the count
      of the new entry's flag, and leaves the other counts alone. */
  lemma SubmitStats(entries: seq<Entry>, text: string, remote: Result<Analysis, string>, clock: Clock, f: Flag)
    requires !IsBlank(text)
    ensures GetStats(Submit(entries, text, remote, clock)).total == |entries| + 1
    ensures CountFlag(Submit(entries, text, remote, clock), f)
            == CountFlag(entries, f) + (if AnalyzeEntry(text, remote).flag == f then 1 else 0)
  {
    var e := NewEntry(text, AnalyzeEntry(text, remote), clock);
    CountFlagConcat([e], entries, f);
    CountFlagSingle(e, f);
  }

  /** A submission that falls back on the keyword classifier adds exactly one
      entry whose flag is one of the three known values, so it keeps the
      statistics summing to the total. */
  lemma SubmitKeepsStatsSum(entries: seq<Entry>, text: string, err: string, clock: Clock)
    requires GetStats(entries).red + GetStats(entries).green + GetStats(entries).neutral == |entries|
    ensures var r := GetStats(Submit(entries, text, Failure(err), clock));
            r.red + r.green + r.neutral == r.total
  {
    if !IsBlank(text) {
      SubmitStats(entries, text, Failure(err), clock, Red);
      SubmitStats(entries, text, Failure(err), clock, Green);
      SubmitStats(entries, text, Failure(err), clock, Neutral);
    }
  }

  /** The colours `getDayColor` picks from; `Css` gives the strings. */
  datatype DayColor = Transparent | RedValue | GreenValue | NeutralText

  function Css(c: DayColor): string
  {
    match c
    case Transparent => "transparent"
    case RedValue => "var(--red-value)"
    case GreenValue => "var(--green-value)"
    case NeutralText => "var(--neutral-text)"
  }

  /** `getDayColor`, and the same rule written inline for the calendar cell
      border: transparent for a day without entries, otherwise the colour of
      the majority of red and green flags, the neutral colour on a tie. */
  function GetDayColor(dayEntries: seq<Entry>): (c: DayColor)
    ensures c == Transparent <==> dayEntries == []
    ensures c == RedValue <==> dayEntries != [] && CountFlag(dayEntries, Red) > CountFlag(dayEntries, Green)
    ensures c == GreenValue <==> dayEntries != [] && CountFlag(dayEntries, Green) > CountFlag(dayEntries, Red)
    ensures c == NeutralText <==> dayEntries != [] && CountFlag(dayEntries, Red) == CountFlag(dayEntries, Green)
  {
    if |dayEntries| == 0 then Transparent
    else
      var red := CountFlag(dayEntries, Red);
      var green := CountFlag(dayEntries, Green);
      if red > green then RedValue
      else if green > red then GreenValue
      else NeutralText
  }

  /** The colour of a day does not depend on the order its entries are
      listed in. */
  lemma DayColorOrderIndependent(a: seq<Entry>, b: seq<Entry>)
    requires multiset(a) == multiset(b)
    ensures GetDayColor(a) == GetDayColor(b)
  {
    CountFlagPermutation(a, b, Red);
    CountFlagPermutation(a, b, Green);
    assert |a| == |multiset(a)| == |multiset(b)| == |b|;
  }

  /** Adding an entry that is neither red nor green to a day that already has
      entries leaves its colour unchanged. */
  lemma DayColorIgnoresOtherFlags(day: seq<Entry>, e: Entry)
    requires day != [] && FlagOf(e) != Red && FlagOf(e) != Green
    ensures GetDayColor(day + [e]) == GetDayColor(day)
  {
    CountFlagConcat(day, [e], Red);
    CountFlagConcat(day, [e], Green);
    CountFlagSingle(e, Red);
    CountFlagSingle(e, Green);
  }

  /** The entries whose timestamp is not before `since`. */
  function InWindow(entries: seq<Entry>, since: int): (r: seq<Entry>)
    ensures |r| <= |entries|
    ensures forall e | e in r :: e in entries && e.timestamp >= since
    ensures forall e | e in entries && e.timestamp >= since :: e in r
  {
    if entries == [] then []
    else
      var rest := InWindow(entries[1..], since);
      assert forall e | e in entries :: e == entries[0] || e in entries[1..];
      if entries[0].timestamp >= since then [entries[0]] + rest else rest
  }

  /** The window keeps every copy of an entry inside it and drops every copy
      of an older one. */
  lemma {:induction false} InWindowMultiset(entries: seq<Entry>, since: int)
    ensures forall e :: multiset(InWindow(entries, since))[e]
                        == if e.timestamp >= since then multiset(entries)[e] else 0
  {
    if entries != [] {
      InWindowMultiset(entries[1..], since);
      assert entries == [entries[0]] + entries[1..];
    }
  }

  datatype Trend = PositiveTrend | ConcerningTrend | NeutralTrend

  datatype WeeklyReport = WeeklyReport(summary: string, insights: seq<string>, trend: Trend, stats: Option<Stats>)

  const EmptyWeekSummary := "No entries this week - try to journal more regularly!"
  const EmptyWeekInsights: seq<string> :=
    ["Consider setting a daily reminder to journal", "Even short entries can provide valuable insights"]

  /** The insight lines for a week that went well, a challenging one and a
      mixed one. */
  const HealthyPatterns := "Your relationship is showing healthy patterns this week!"
  const KeepItUp := "Keep up the positive communication and support."
  const ConsiderFactors := "Consider what factors might be contributing to conflicts."
  const TalkToSomeone := "It might be helpful to talk to a counselor or trusted friend."
  const BuildMoments := "Focus on building more positive moments together."
  const SetBoundaries := "Communication and setting boundaries can help."

  /** The opening sentence of the summary of a week with entries. */
  function SummaryOpening(total: nat): string
  {
    "This week you made " + NatToString(total) + " entries. "
  }

  /** The second sentence of the summary for each trend. */
  function PositiveSummary(week: Stats): string
  {
    "Great job! You had " + NatToString(week.green) + " positive interactions and only "
    + NatToString(week.red) + " concerning ones."
  }

  function ConcerningSummary(week: Stats): string
  {
    "This week was challenging with " + NatToString(week.red) + " red flags and "
    + NatToString(week.green) + " green flags."
  }

  function MixedSummary(week: Stats): string
  {
    "You had a mixed week with " + NatToString(week.green) + " positive and "
    + NatToString(week.red) + " concerning interactions."
  }

  /** `generateWeeklyReport`, with the start of the window (`oneWeekAgo`)
      supplied by the caller.  No entries in the window gives a neutral trend,
      the reminder insights and no statistics; otherwise the statistics are
      those of the window, the summary is the entry count followed by the
      sentence of its trend, and the trend follows the majority of green over
      red flags, neutral on a tie.  There are always two insights, fixed for
      each trend, and a mixed week's differ from the empty week's. */
  method GenerateWeeklyReport(entries: seq<Entry>, oneWeekAgo: int) returns (report: WeeklyReport)
    ensures var week := GetStats(InWindow(entries, oneWeekAgo));
            && (week.total == 0 ==> report == WeeklyReport(EmptyWeekSummary, EmptyWeekInsights, NeutralTrend, None))
            && (week.total > 0 ==> report.stats == Some(week))
            && (week.total > 0 ==> |SummaryOpening(week.total)| <= |report.summary|
                                   && report.summary[..|SummaryOpening(week.total)|] == SummaryOpening(week.total))
            && (week.total > 0 ==> (report.trend == PositiveTrend <==> week.green > week.red))
            && (week.total > 0 ==> (report.trend == ConcerningTrend <==> week.red > week.green))
            && (week.total > 0 ==> (report.trend == NeutralTrend <==> week.red == week.green))
            && (report.trend == PositiveTrend ==> report.summary == SummaryOpening(week.total) + PositiveSummary(week))
            && (report.trend == ConcerningTrend ==> report.summary == SummaryOpening(week.total) + ConcerningSummary(week))
            && (week.total > 0 && report.trend == NeutralTrend
                ==> report.summary == SummaryOpening(week.total) + MixedSummary(week))
    ensures |report.insights| == 2
    ensures report.trend == PositiveTrend ==> report.insights == [HealthyPatterns, KeepItUp]
    ensures report.trend == ConcerningTrend ==> report.insights == [ConsiderFactors, TalkToSomeone]
    ensures report.trend == NeutralTrend && report.stats.Some? ==> report.insights == [BuildMoments, SetBoundaries]
  {
    var weekEntries := InWindow(entries, oneWeekAgo);
    var weekStats := GetStats(weekEntries);
    if weekStats.total == 0 {
      return WeeklyReport(EmptyWeekSummary, EmptyWeekInsights, NeutralTrend, None);
    }
    var summary := SummaryOpening(weekStats.total);
    var trend := NeutralTrend;
    var insights: seq<string> := [];
    if weekStats.green > weekStats.red {
      summary := summary + PositiveSummary(weekStats);
      trend := PositiveTrend;
      insights := insights + [HealthyPatterns];
      insights := insights + [KeepItUp];
    } else if weekStats.red > weekStats.green {
      summary := summary + ConcerningSummary(weekStats);
      trend := ConcerningTrend;
      insights := insights + [ConsiderFactors];
      insights := insights + [TalkToSomeone];
    } else {
      summary := summary + MixedSummary(weekStats);
      insights := insights + [BuildMoments];
      insights := insights + [SetBoundaries];
    }
    report := WeeklyReport(summary, insights, trend, Some(weekStats));
  }
}
