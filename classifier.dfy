/** The journal's keyword classifier (`localAnalyzeEntry`) and the way the
    journal falls back on it when the remote analysis throws
    (`analyzeEntry`). */
module Classifier {
  import opened Wrappers
  import opened Text
  import opened Entries

  /** Patterns whose presence anywhere in the lower-cased text makes an entry
      a red flag.  Matching is by substring, so `"hit"` also fires inside
      "white" and `"lie"` inside "believe". */
  const RedFlags: seq<string> := [
    "yell", "scream", "threw", "hit", "slam", "threat", "stupid", "worthless",
    "control", "check my phone", "isolat", "forbid", "called me names",
    "silent treatment", "ignor", "punish", "jealous", "accus", "doesn't trust",
    "lie", "lying", "lied", "cheat", "cheating"
  ]

  /** Patterns that make an entry a green flag when no red pattern occurs. */
  const GreenFlags: seq<string> := [
    "listen", "apologi", "support", "encourag", "help", "communicat",
    "discuss", "compromi", "understand", "celebrat", "proud", "respect",
    "boundar", "space", "date", "quality time", "grateful", "thank"
  ]

  const NeutralAnalysis := Analysis(
    Neutral, "neutral", "\U{26AA}", "Neutral",
    "This seems like a normal relationship interaction.",
    ["Continue observing patterns", "Practice open communication"])

  const RedAnalysis := Analysis(
    Red, "red", "\U{1F6A9}", "Red Flag Detected",
    "This behavior shows concerning patterns that may indicate an unhealthy dynamic.",
    ["Consider talking to a trusted friend or counselor",
     "Document these incidents",
     "Remember that healthy relationships involve mutual respect",
     "National Domestic Violence Hotline: 1-800-799-7233"])

  const GreenAnalysis := Analysis(
    Green, "green", "\U{2705}", "Green Flag",
    "This shows positive relationship behaviors and healthy communication.",
    ["Acknowledge and appreciate these positive moments",
     "Continue building on this healthy foundation",
     "Express gratitude to your partner"])

  /** Some pattern of the list occurs in `s`. */
  predicate AnyHit(patterns: seq<string>, s: string)
  {
    exists i | 0 <= i < |patterns| :: Contains(s, patterns[i])
  }

  /** `patterns.filter(p => s.includes(p)).length`. */
  function HitCount(patterns: seq<string>, s: string): (n: nat)
    ensures n <= |patterns|
    ensures n > 0 <==> AnyHit(patterns, s)
  {
    if patterns == [] then 0
    else
      var rest := HitCount(patterns[1..], s);
      assert AnyHit(patterns[1..], s) ==> AnyHit(patterns, s) by {
        if AnyHit(patterns[1..], s) {
          var i :| 0 <= i < |patterns[1..]| && Contains(s, patterns[1..][i]);
          assert patterns[i + 1] == patterns[1..][i];
        }
      }
      assert AnyHit(patterns, s) && !Contains(s, patterns[0]) ==> AnyHit(patterns[1..], s) by {
        if AnyHit(patterns, s) && !Contains(s, patterns[0]) {
          var i :| 0 <= i < |patterns| && Contains(s, patterns[i]);
          assert patterns[1..][i - 1] == patterns[i];
        }
      }
      (if Contains(s, patterns[0]) then 1 else 0) + rest
  }

  /** `localAnalyzeEntry(text)`: any red hit gives the red template whatever
      the green hits; otherwise any green hit gives the green template;
      otherwise the neutral template is returned unchanged. */
  function LocalAnalyze(text: string): (r: Analysis)
    ensures r.flag == Red <==> AnyHit(RedFlags, Lower(text))
    ensures r.flag == Green <==> !AnyHit(RedFlags, Lower(text)) && AnyHit(GreenFlags, Lower(text))
    ensures r.flag == Neutral <==> !AnyHit(RedFlags, Lower(text)) && !AnyHit(GreenFlags, Lower(text))
    ensures r == RedAnalysis || r == GreenAnalysis || r == NeutralAnalysis
    ensures r.flag == Red ==> r == RedAnalysis && |r.suggestions| == 4
    ensures r.flag == Green ==> r == GreenAnalysis && |r.suggestions| == 3
    ensures r.flag == Neutral ==> r == NeutralAnalysis && |r.suggestions| == 2
  {
    var lowerText := Lower(text);
    var redFlagCount := HitCount(RedFlags, lowerText);
    var greenFlagCount := HitCount(GreenFlags, lowerText);
    if redFlagCount > 0 then RedAnalysis
    else if greenFlagCount > 0 then GreenAnalysis
    else NeutralAnalysis
  }

  /** Red takes precedence: once a red pattern occurs, no number of green
      patterns changes the verdict. */
  lemma RedPrecedence(text: string, before: string, after: string)
    requires AnyHit(RedFlags, Lower(text))
    ensures LocalAnalyze(before + text + after).flag == Red
  {
    var i :| 0 <= i < |RedFlags| && Contains(Lower(text), RedFlags[i]);
    LowerConcat(before, text);
    LowerConcat(before + text, after);
    ContainsExtended(Lower(text), RedFlags[i], Lower(before), Lower(after));
  }

  /** Matching is on substrings rather than words: "white" is a red flag
      because it contains "hit". */
  lemma HitInsideWhite()
    ensures LocalAnalyze("White").flag == Red
  {
    assert Lower("White") == "white";
    assert RedFlags[3] == "hit";
    assert OccursAt("white", "hit", 1);
  }

  /** "believe" contains "lie", so an entry saying so is a red flag. */
  lemma LieInsideBelieve()
    ensures LocalAnalyze("I believe you").flag == Red
  {
    assert Lower("I believe you") == "i believe you";
    assert RedFlags[19] == "lie";
    assert OccursAt("i believe you", "lie", 4);
  }

  /** No red pattern occurs in "update": each has a letter that the word
      lacks (patterns 0 to 5, */
  lemma NoRedInUpdateA()
    ensures forall i | 0 <= i < 6 :: !Contains("update", RedFlags[i])
  {
    forall i | 0 <= i < 6 ensures !Contains("update", RedFlags[i]) {
      if i == 0 {
        MissingCharNotContained("update", RedFlags[0], 0);
      } else if i == 1 {
        MissingCharNotContained("update", RedFlags[1], 0);
      } else if i == 2 {
        MissingCharNotContained("update", RedFlags[2], 1);
      } else if i == 3 {
        MissingCharNotContained("update", RedFlags[3], 1);
      } else if i == 4 {
        MissingCharNotContained("update", RedFlags[4], 0);
      } else {
        MissingCharNotContained("update", RedFlags[5], 1);
      }
    }
  }

  /** 6 to 11, */
  lemma NoRedInUpdateB()
    ensures forall i | 6 <= i < 12 :: !Contains("update", RedFlags[i])
  {
    forall i | 6 <= i < 12 ensures !Contains("update", RedFlags[i]) {
      if i == 6 {
        MissingCharNotContained("update", RedFlags[6], 0);
      } else if i == 7 {
        MissingCharNotContained("update", RedFlags[7], 0);
      } else if i == 8 {
        MissingCharNotContained("update", RedFlags[8], 0);
      } else if i == 9 {
        MissingCharNotContained("update", RedFlags[9], 0);
      } else if i == 10 {
        MissingCharNotContained("update", RedFlags[10], 0);
      } else {
        MissingCharNotContained("update", RedFlags[11], 0);
      }
    }
  }

  /** 12 to 17, */
  lemma NoRedInUpdateC()
    ensures forall i | 12 <= i < 18 :: !Contains("update", RedFlags[i])
  {
    forall i | 12 <= i < 18 ensures !Contains("update", RedFlags[i]) {
      if i == 12 {
        MissingCharNotContained("update", RedFlags[12], 0);
      } else if i == 13 {
        MissingCharNotContained("update", RedFlags[13], 0);
      } else if i == 14 {
        MissingCharNotContained("update", RedFlags[14], 0);
      } else if i == 15 {
        MissingCharNotContained("update", RedFlags[15], 3);
      } else if i == 16 {
        MissingCharNotContained("update", RedFlags[16], 0);
      } else {
        MissingCharNotContained("update", RedFlags[17], 1);
      }
    }
  }

  /** and 18 to 23). */
  lemma NoRedInUpdateD()
    ensures forall i | 18 <= i < 24 :: !Contains("update", RedFlags[i])
  {
    forall i | 18 <= i < 24 ensures !Contains("update", RedFlags[i]) {
      if i == 18 {
        MissingCharNotContained("update", RedFlags[18], 1);
      } else if i == 19 {
        MissingCharNotContained("update", RedFlags[19], 0);
      } else if i == 20 {
        MissingCharNotContained("update", RedFlags[20], 0);
      } else if i == 21 {
        MissingCharNotContained("update", RedFlags[21], 0);
      } else if i == 22 {
        MissingCharNotContained("update", RedFlags[22], 0);
      } else {
        MissingCharNotContained("update", RedFlags[23], 0);
      }
    }
  }

  /** "update" contains "date", so an entry saying so is a green flag. */
  lemma DateInsideUpdate()
    ensures LocalAnalyze("Update").flag == Green
  {
    var s := Lower("Update");
    assert s == "update";
    NoRedInUpdateA();
    NoRedInUpdateB();
    NoRedInUpdateC();
    NoRedInUpdateD();
    assert !AnyHit(RedFlags, s);
    assert OccursAt(s, "date", 2);
    assert Contains(s, GreenFlags[14]);
    assert AnyHit(GreenFlags, s);
  }

  /** `analyzeEntry`: the remote analysis when it answers, the keyword
      classifier when it throws. */
  function AnalyzeEntry(text: string, remote: Result<Analysis, string>): (r: Analysis)
    ensures remote.Success? ==> r == remote.value
    ensures remote.Failure? ==> r == LocalAnalyze(text) && IsKnownFlag(r.flag)
  {
    match remote
    case Success(analysis) => analysis
    case Failure(_) => LocalAnalyze(text)
  }
}
