/** The speech-analysis rules of the voice chat: counting Arabic filler
    words in a transcript, the hesitation ratio, the level names of the
    confidence, fluency and proficiency scores, and the feedback lines for
    one analysis. The analysis record itself comes from the Python service;
    the call that fetches it is outside the model. */
module SpeechAnalysis {
  import opened Wrappers
  import Text

  datatype PitchMetrics = PitchMetrics(mean: real, std: real, min: real, max: real, coefficientOfVariation: real)
  datatype IntensityMetrics = IntensityMetrics(mean: real, std: real, max: real)
  datatype VoiceQualityMetrics = VoiceQualityMetrics(harmonicsToNoiseRatio: real, jitter: real, shimmer: real)
  datatype TimingMetrics = TimingMetrics(speakingTime: real, silenceTime: real, pauseRatio: real,
                                         speechRate: real, articulationRate: real)
  datatype SpeechScores = SpeechScores(confidence: real, fluency: real, overall: real)
  datatype SpeechAnalysisResult = SpeechAnalysisResult(duration: real, pitch: PitchMetrics, intensity: IntensityMetrics,
                                                       voiceQuality: VoiceQualityMetrics, timing: TimingMetrics,
                                                       scores: SpeechScores)

  datatype FillerEntry = FillerEntry(word: string, timestamp: int)
  datatype FillerWords = FillerWords(count: nat, words: seq<FillerEntry>)

  /** The eleven fillers, in the order they are searched for (ya'ni, ya'ni
      kaza, wallah written with the Allah ligature, wallah, eh, aah, ummm,
      ya, shu, masalan, bas). */
  const Fillers: seq<string> := [
    "يعني", "يعني كذا", "و\U{FDF2}", "والله", "اه", "ااه", "اممم", "يا", "شو", "مثلا", "بس"
  ]

  lemma FillersNonEmpty()
    ensures |Fillers| == 11
    ensures forall k :: 0 <= k < |Fillers| ==> |Fillers[k]| > 0
  {}

  // ---------------------------------------------------------------------
  // Filler detection

  /** The matches of the literal `p` that a global regular-expression scan
      finds from position `i` on: leftmost first, resuming after each
      match, so matches never overlap. */
  function MatchesFrom(t: string, p: string, i: nat): nat
    requires |p| > 0
    decreases |t| - i
  {
    if i + |p| > |t| then 0
    else if MatchAt(t, p, i) then 1 + MatchesFrom(t, p, i + |p|)
    else MatchesFrom(t, p, i + 1)
  }

  /** The matches never overlap: together they are no longer than the
      text scanned. */
  lemma {:induction false} MatchesFit(t: string, p: string, i: nat)
    requires |p| > 0
    ensures MatchesFrom(t, p, i) * |p| <= if i <= |t| then |t| - i else 0
    decreases |t| - i
  {
    if i + |p| <= |t| {
      if MatchAt(t, p, i) {
        var rest := MatchesFrom(t, p, i + |p|);
        MatchesFit(t, p, i + |p|);
        assert MatchesFrom(t, p, i) == rest + 1;
        OneMore(rest, |p|);
      } else {
        MatchesFit(t, p, i + 1);
      }
    }
  }

  lemma OneMore(a: nat, b: nat)
    ensures (a + 1) * b == a * b + b
  {}

  /** `p` occurs in `t` at `i`. */
  predicate MatchAt(t: string, p: string, i: nat)
  {
    i + |p| <= |t| && t[i..i + |p|] == p
  }

  /** The scan misses no filler: an occurrence at or after `i` means at
      least one match. */
  lemma {:induction false} OccurrenceIsFound(t: string, p: string, i: nat, j: nat)
    requires |p| > 0 && i <= j && MatchAt(t, p, j)
    ensures MatchesFrom(t, p, i) >= 1
    decreases j - i
  {
    if !MatchAt(t, p, i) {
      OccurrenceIsFound(t, p, i + 1, j);
    }
  }

  /** An entry repeated `n` times. */
  function Repeat(e: FillerEntry, n: nat): (r: seq<FillerEntry>)
    ensures |r| == n && forall k :: 0 <= k < n ==> r[k] == e
  {
    if n == 0 then [] else Repeat(e, n - 1) + [e]
  }

  /** One step of the scan at `i`. */
  lemma MatchesStep(t: string, p: string, i: nat)
    requires |p| > 0 && i + |p| <= |t|
    ensures MatchAt(t, p, i) ==> MatchesFrom(t, p, i) == 1 + MatchesFrom(t, p, i + |p|)
    ensures !MatchAt(t, p, i) ==> MatchesFrom(t, p, i) == MatchesFrom(t, p, i + 1)
  {}

  /** The total number of matches of the fillers `fs`. */
  function TotalMatches(t: string, fs: seq<string>): nat
    requires forall k :: 0 <= k < |fs| ==> |fs[k]| > 0
  {
    if fs == [] then 0
    else TotalMatches(t, fs[..|fs| - 1]) + MatchesFrom(t, fs[|fs| - 1], 0)
  }

  /** The entries for the fillers `fs`: all matches of the first filler,
      then all of the second, and so on, each with timestamp 0. */
  function Entries(t: string, fs: seq<string>): (es: seq<FillerEntry>)
    requires forall k :: 0 <= k < |fs| ==> |fs[k]| > 0
    ensures |es| == TotalMatches(t, fs)
    ensures forall k :: 0 <= k < |es| ==> es[k].word in fs && es[k].timestamp == 0
  {
    if fs == [] then []
    else
      var last := fs[|fs| - 1];
      var es := Entries(t, fs[..|fs| - 1]) + Repeat(FillerEntry(last, 0), MatchesFrom(t, last, 0));
      assert forall w :: w in fs[..|fs| - 1] ==> w in fs;
      es
  }

  /** The number of fillers a transcript holds, all fillers counted. */
  function FillerCount(t: string): nat
  {
    FillersNonEmpty();
    TotalMatches(t, Fillers)
  }

  /** The entries `detectArabicFillers` reports for a transcript. */
  function FillerEntries(t: string): (es: seq<FillerEntry>)
    ensures |es| == FillerCount(t)
  {
    FillersNonEmpty();
    Entries(t, Fillers)
  }

  /** The total counts the matches of any one filler of the list. */
  lemma {:induction false} TotalCountsOne(t: string, fs: seq<string>, a: nat)
    requires forall k :: 0 <= k < |fs| ==> |fs[k]| > 0
    requires a < |fs|
    ensures TotalMatches(t, fs) >= MatchesFrom(t, fs[a], 0)
    decreases |fs|
  {
    if a < |fs| - 1 {
      var init := fs[..|fs| - 1];
      assert init[a] == fs[a];
      TotalCountsOne(t, init, a);
    }
  }

  /** The total counts the matches of any two fillers of the list, each
      separately. */
  lemma {:induction false} TotalCountsTwo(t: string, fs: seq<string>, a: nat, b: nat)
    requires forall k :: 0 <= k < |fs| ==> |fs[k]| > 0
    requires a < b < |fs|
    ensures TotalMatches(t, fs) >= MatchesFrom(t, fs[a], 0) + MatchesFrom(t, fs[b], 0)
    decreases |fs|
  {
    var init := fs[..|fs| - 1];
    assert init[a] == fs[a];
    if b == |fs| - 1 {
      TotalCountsOne(t, init, a);
    } else {
      assert init[b] == fs[b];
      TotalCountsTwo(t, init, a, b);
    }
  }

  /** A filler that sits inside another is counted on its own as well: one
      occurrence of the outer filler makes both scans find a match, and the
      transcript holds at least two fillers. */
  lemma NestedFillerCounted(t: string, inner: nat, outer: nat, j: nat, d: nat)
    requires inner < |Fillers| && outer < |Fillers| && inner != outer
    requires d + |Fillers[inner]| <= |Fillers[outer]|
    requires Fillers[outer][d..d + |Fillers[inner]|] == Fillers[inner]
    requires MatchAt(t, Fillers[outer], j)
    ensures MatchesFrom(t, Fillers[inner], 0) >= 1 && MatchesFrom(t, Fillers[outer], 0) >= 1
    ensures FillerCount(t) >= 2
  {
    FillersNonEmpty();
    var p, q := Fillers[inner], Fillers[outer];
    InnerMatch(t, p, q, j, d);
    OccurrenceIsFound(t, p, 0, j + d);
    OccurrenceIsFound(t, q, 0, j);
    if inner < outer {
      TotalCountsTwo(t, Fillers, inner, outer);
    } else {
      TotalCountsTwo(t, Fillers, outer, inner);
    }
  }

  /** Where `q` occurs, so does any part `p` of it. */
  lemma InnerMatch(t: string, p: string, q: string, j: nat, d: nat)
    requires MatchAt(t, q, j) && d + |p| <= |q| && q[d..d + |p|] == p
    ensures MatchAt(t, p, j + d)
  {
    assert forall k :: 0 <= k < |p| ==> p[k] == q[d + k] == t[j..j + |q|][d + k] == t[j + d + k];
    assert t[j + d..j + d + |p|] == p;
  }

  /** "ya'ni kaza" in a transcript is counted twice: once as the phrase and
      once as the "ya'ni" it opens with. */
  lemma PhraseCountsItsWord(t: string, j: nat)
    requires MatchAt(t, "يعني كذا", j)
    ensures MatchesFrom(t, "يعني", 0) >= 1 && MatchesFrom(t, "يعني كذا", 0) >= 1
    ensures FillerCount(t) >= 2
  {
    assert Fillers[1][0..|Fillers[0]|] == Fillers[0];
    NestedFillerCounted(t, 0, 1, j, 0);
  }

  /** The scan for one filler: one entry per match. */
  method ScanFiller(transcript: string, filler: string) returns (found: seq<FillerEntry>)
    requires |filler| > 0
    ensures found == Repeat(FillerEntry(filler, 0), MatchesFrom(transcript, filler, 0))
  {
    ghost var total := MatchesFrom(transcript, filler, 0);
    ghost var n := 0;
    found := [];
    var i := 0;
    while i + |filler| <= |transcript|
      invariant n + MatchesFrom(transcript, filler, i) == total
      invariant found == Repeat(FillerEntry(filler, 0), n)
      decreases |transcript| - i
    {
      MatchesStep(transcript, filler, i);
      if MatchAt(transcript, filler, i) {
        found := found + [FillerEntry(filler, 0)];
        n := n + 1;
        i := i + |filler|;
      } else {
        i := i + 1;
      }
    }
  }

  /** `detectArabicFillers`: for each filler in turn, every match found by
      the scan adds one to the count and one entry. */
  method DetectArabicFillers(transcript: string) returns (result: FillerWords)
    ensures result.count == |result.words| == FillerCount(transcript)
    ensures result.words == FillerEntries(transcript)
  {
    FillersNonEmpty();
    var words: seq<FillerEntry> := [];
    var count := 0;
    var k := 0;
    while k < |Fillers|
      invariant 0 <= k <= |Fillers|
      invariant words == Entries(transcript, Fillers[..k])
      invariant count == |words|
    {
      var found := ScanFiller(transcript, Fillers[k]);
      words := words + found;
      count := count + |found|;
      assert Fillers[..k + 1][..k] == Fillers[..k];
      k := k + 1;
    }
    assert Fillers[..|Fillers|] == Fillers;
    result := FillerWords(count, words);
  }

  // ---------------------------------------------------------------------
  // Hesitation ratio

  /** `\s` of JavaScript regular expressions. */
  predicate IsJsSpace(c: char)
  {
    c == '\t' || c == '\n' || c == '\U{000B}' || c == '\U{000C}' || c == '\r' || c == ' '
    || c == '\U{00A0}' || c == '\U{1680}' || ('\U{2000}' <= c <= '\U{200A}')
    || c == '\U{2028}' || c == '\U{2029}' || c == '\U{202F}' || c == '\U{205F}'
    || c == '\U{3000}' || c == '\U{FEFF}'
  }

  /** The number of maximal runs of whitespace. */
  function SpaceRuns(t: string): (n: nat)
    ensures n <= |t|
  {
    if |t| == 0 then 0
    else
      var starts := IsJsSpace(t[|t| - 1]) && (|t| == 1 || !IsJsSpace(t[|t| - 2]));
      SpaceRuns(t[..|t| - 1]) + (if starts then 1 else 0)
  }

  /** `t.split(/\s+/).length`: one piece more than there are whitespace
      runs (leading or trailing whitespace gives an empty piece, and the
      empty string is one empty piece), so never zero. */
  function Pieces(t: string): (n: nat)
    ensures 1 <= n <= |t| + 1
  {
    1 + SpaceRuns(t)
  }

  /** A text without whitespace is one piece. */
  lemma {:induction false} NoSpaceOnePiece(t: string)
    requires forall i :: 0 <= i < |t| ==> !IsJsSpace(t[i])
    ensures Pieces(t) == 1
  {
    if |t| > 0 {
      NoSpaceOnePiece(t[..|t| - 1]);
    }
  }

  /** `calculateHesitationRatio`: fillers per hundred pieces; the duration
      is not used. */
  function HesitationRatio(transcript: string, duration: real): (r: real)
    ensures 0.0 <= r
    ensures FillerCount(transcript) == 0 <==> r == 0.0
    ensures r * Pieces(transcript) as real == 100.0 * FillerCount(transcript) as real
  {
    var fillers := FillerCount(transcript) as real;
    var words := Pieces(transcript) as real;
    PerHundred(fillers, words);
    (fillers / words) * 100.0
  }

  lemma PerHundred(c: real, w: real)
    requires 0.0 <= c && 0.0 < w
    ensures 0.0 <= (c / w) * 100.0
    ensures c == 0.0 <==> (c / w) * 100.0 == 0.0
    ensures (c / w) * 100.0 * w == 100.0 * c
  {
    assert (c / w) * w == c;
  }

  /** The method form of `calculateHesitationRatio`, which runs the filler
      scan. */
  method CalculateHesitationRatio(transcript: string, duration: real) returns (r: real)
    ensures r == HesitationRatio(transcript, duration)
  {
    var fillers := DetectArabicFillers(transcript);
    var words := Pieces(transcript);
    r := (fillers.count as real / words as real) * 100.0;
  }

  // ---------------------------------------------------------------------
  // Levels

  /** How many of the thresholds 20, 40, 60 and 80 a score reaches. */
  function Band(score: real): (b: nat)
    ensures b <= 4
    ensures forall k :: 1 <= k <= 4 ==> (k <= b <==> (20 * k) as real <= score)
  {
    if score >= 80.0 then 4 else if score >= 60.0 then 3 else if score >= 40.0 then 2
    else if score >= 20.0 then 1 else 0
  }

  lemma BandMonotone(x: real, y: real)
    requires x <= y
    ensures Band(x) <= Band(y)
  {}

  const ConfidenceLabels: seq<string> := ["Very Low Confidence", "Low Confidence", "Moderate", "Confident", "Very Confident"]
  const FluencyLabels: seq<string> := ["Developing Fluency", "Low Fluency", "Moderate Fluency", "Fluent", "Very Fluent"]
  const ProficiencyLabels: seq<string> := ["Novice", "Novice-High", "Intermediate", "Intermediate-High", "Advanced"]

  /** `getConfidenceLevel`: five bands, rising with the score. */
  function ConfidenceLevel(score: real): (s: string)
    ensures s == ConfidenceLabels[Band(score)]
  {
    if score >= 80.0 then "Very Confident"
    else if score >= 60.0 then "Confident"
    else if score >= 40.0 then "Moderate"
    else if score >= 20.0 then "Low Confidence"
    else "Very Low Confidence"
  }

  /** `getFluencyLevel`: five bands, rising with the score. */
  function FluencyLevel(score: real): (s: string)
    ensures s == FluencyLabels[Band(score)]
  {
    if score >= 80.0 then "Very Fluent"
    else if score >= 60.0 then "Fluent"
    else if score >= 40.0 then "Moderate Fluency"
    else if score >= 20.0 then "Low Fluency"
    else "Developing Fluency"
  }

  /** `getProficiencyLevel`: the same bands over the mean of the two scores
      less the hesitation ratio. */
  function ProficiencyLevel(confidence: real, fluency: real, hesitation: real): (s: string)
    ensures s == ProficiencyLabels[Band((confidence + fluency) / 2.0 - hesitation)]
  {
    var overall := (confidence + fluency) / 2.0;
    var adjusted := overall - hesitation;
    if adjusted >= 80.0 then "Advanced"
    else if adjusted >= 60.0 then "Intermediate-High"
    else if adjusted >= 40.0 then "Intermediate"
    else if adjusted >= 20.0 then "Novice-High"
    else "Novice"
  }

  /** More hesitation never gives a higher level; better scores never give
      a lower one. */
  lemma ProficiencyMonotone(c: real, f: real, h: real, c': real, f': real, h': real)
    requires c <= c' && f <= f' && h' <= h
    ensures Band((c + f) / 2.0 - h) <= Band((c' + f') / 2.0 - h')
  {
    BandMonotone((c + f) / 2.0 - h, (c' + f') / 2.0 - h');
  }

  // ---------------------------------------------------------------------
  // Feedback

  const LouderLine := "Try speaking with more volume and projection"
  const SteadierLine := "Work on maintaining a steadier pitch"
  const ClearerLine := "Focus on clear vocal production"
  const ConfidencePraise := "Excellent confidence! Your voice is strong and steady"
  const PausesLine := "Try to reduce pauses between words"
  const FasterLine := "Try to speak at a slightly faster pace"
  const SlowerLine := "Try to slow down a bit for better clarity"
  const FluencyPraise := "Great fluency! Your speech flow is natural"
  const GreatWork := "Keep up the great work! 🌟"
  const GoodProgress := "Good progress! Keep practicing! 💪"
  const KeepPracticing := "Keep practicing - you'll improve with time! 📚"

  /** The lines the confidence and the fluency feedback choose from. */
  const ConfidenceMessages: set<string> := {LouderLine, SteadierLine, ClearerLine, ConfidencePraise}
  const FluencyMessages: set<string> := {PausesLine, FasterLine, SlowerLine, FluencyPraise}
  const Encouragements: set<string> := {GreatWork, GoodProgress, KeepPracticing}

  /** The confidence lines: advice only below 50, praise only from 80. */
  function ConfidenceFeedback(r: SpeechAnalysisResult): (lines: seq<string>)
    ensures r.scores.confidence < 50.0 ==> ConfidencePraise !in lines && |lines| <= 3
    ensures 50.0 <= r.scores.confidence < 80.0 ==> lines == []
    ensures 80.0 <= r.scores.confidence ==> lines == [ConfidencePraise]
    ensures forall k :: 0 <= k < |lines| ==> lines[k] in ConfidenceMessages
  {
    if r.scores.confidence < 50.0 then
      (if r.intensity.mean < 55.0 then [LouderLine] else [])
      + (if r.pitch.coefficientOfVariation > 25.0 then [SteadierLine] else [])
      + (if r.voiceQuality.harmonicsToNoiseRatio < 10.0 then [ClearerLine] else [])
    else if r.scores.confidence >= 80.0 then [ConfidencePraise]
    else []
  }

  /** The fluency lines: advice only below 50, praise only from 80; at most
      one of the two pace lines. */
  function FluencyFeedback(r: SpeechAnalysisResult): (lines: seq<string>)
    ensures r.scores.fluency < 50.0 ==>
              FluencyPraise !in lines && |lines| <= 2 && !(FasterLine in lines && SlowerLine in lines)
    ensures 50.0 <= r.scores.fluency < 80.0 ==> lines == []
    ensures 80.0 <= r.scores.fluency ==> lines == [FluencyPraise]
    ensures forall k :: 0 <= k < |lines| ==> lines[k] in FluencyMessages
  {
    if r.scores.fluency < 50.0 then
      (if r.timing.pauseRatio > 40.0 then [PausesLine] else [])
      + (if r.timing.speechRate < 120.0 then [FasterLine]
         else if r.timing.speechRate > 220.0 then [SlowerLine] else [])
    else if r.scores.fluency >= 80.0 then [FluencyPraise]
    else []
  }

  function Words(es: seq<FillerEntry>): seq<string>
  {
    seq(|es|, k requires 0 <= k < |es| => es[k].word)
  }

  /** The filler line: the count and the first three fillers found. */
  function FillerLine(transcript: string): string
  {
    var es := FillerEntries(transcript);
    var shown := if |es| <= 3 then es else es[..3];
    "Reduce filler words (found " + Text.NatToString(FillerCount(transcript))
    + " fillers: " + Text.Join(Words(shown), ", ") + "...)"
  }

  lemma FillerLineStart(transcript: string)
    ensures FillerLine(transcript)[0] == 'R'
  {}

  /** The filler lines: only for a non-empty transcript whose hesitation
      ratio is above 10. */
  function FillerFeedback(r: SpeechAnalysisResult, transcript: Option<string>): (lines: seq<string>)
    ensures |lines| <= 1
    ensures forall k :: 0 <= k < |lines| ==> |lines[k]| > 0 && lines[k][0] == 'R'
  {
    FillerLineStart(if transcript.Some? then transcript.value else "");
    if transcript.Some? && transcript.value != "" && HesitationRatio(transcript.value, r.duration) > 10.0
    then [FillerLine(transcript.value)]
    else []
  }

  /** The closing encouragement, by overall score. */
  function Encouragement(overall: real): string
  {
    if overall >= 70.0 then GreatWork else if overall >= 50.0 then GoodProgress else KeepPracticing
  }

  function Feedback(r: SpeechAnalysisResult, transcript: Option<string>): seq<string>
  {
    ConfidenceFeedback(r) + FluencyFeedback(r) + FillerFeedback(r, transcript) + [Encouragement(r.scores.overall)]
  }

  predicate IsEncouragement(line: string)
  {
    line in Encouragements
  }

  /** No encouragement opens with `R`, and none is one of the confidence or
      fluency lines. */
  lemma EncouragementShape(line: string)
    requires IsEncouragement(line)
    ensures line[0] != 'R'
    ensures line !in ConfidenceMessages && line !in FluencyMessages
  {
    assert |GreatWork| == 25 && GreatWork[0] == 'K';
    assert |GoodProgress| == 33 && GoodProgress[0] == 'G';
    assert |KeepPracticing| == 45 && KeepPracticing[0] == 'K';
    assert |LouderLine| == 44 && |SteadierLine| == 36 && |ClearerLine| == 31 && |ConfidencePraise| == 53;
    assert |PausesLine| == 34 && |FasterLine| == 38 && |SlowerLine| == 41 && |FluencyPraise| == 42;
  }

  /** The feedback always ends with exactly one encouragement line, and
      holds at most seven lines. */
  lemma FeedbackShape(r: SpeechAnalysisResult, transcript: Option<string>)
    ensures var fb := Feedback(r, transcript);
      1 <= |fb| <= 7 && fb[|fb| - 1] == Encouragement(r.scores.overall)
      && forall k :: 0 <= k < |fb| - 1 ==> !IsEncouragement(fb[k])
  {
    var c, f, l := ConfidenceFeedback(r), FluencyFeedback(r), FillerFeedback(r, transcript);
    var e := Encouragement(r.scores.overall);
    NoEncouragementIn(c);
    NoEncouragementIn(f);
    NoEncouragementIn(l);
    assert |c| <= 3 && |f| <= 2;
    LinesShape(c, f, l, e);
    assert Feedback(r, transcript) == c + f + l + [e];
  }

  /** Advice lines followed by one closing line: the closing line is last
      and is the only encouragement. */
  lemma LinesShape(c: seq<string>, f: seq<string>, l: seq<string>, e: string)
    requires |c| <= 3 && |f| <= 2 && |l| <= 1
    requires forall k :: 0 <= k < |c| ==> !IsEncouragement(c[k])
    requires forall k :: 0 <= k < |f| ==> !IsEncouragement(f[k])
    requires forall k :: 0 <= k < |l| ==> !IsEncouragement(l[k])
    ensures var fb := c + f + l + [e];
      1 <= |fb| <= 7 && fb[|fb| - 1] == e
      && forall k :: 0 <= k < |fb| - 1 ==> !IsEncouragement(fb[k])
  {
    var body := c + f + l;
    assert c + f + l + [e] == body + [e];
    forall k | 0 <= k < |body| ensures !IsEncouragement(body[k]) {
      if k < |c| {
        assert body[k] == c[k];
      } else if k < |c| + |f| {
        assert body[k] == f[k - |c|];
      } else {
        assert body[k] == l[k - |c| - |f|];
      }
    }
  }

  lemma NoEncouragementIn(lines: seq<string>)
    requires forall k :: 0 <= k < |lines| ==>
      lines[k] in ConfidenceMessages || lines[k] in FluencyMessages || (|lines[k]| > 0 && lines[k][0] == 'R')
    ensures forall k :: 0 <= k < |lines| ==> !IsEncouragement(lines[k])
  {
    forall k | 0 <= k < |lines| ensures !IsEncouragement(lines[k]) {
      NotEncouragement(lines[k]);
    }
  }

  /** A confidence or fluency line, or one opening with `R`, is no
      encouragement. */
  lemma NotEncouragement(line: string)
    requires line in ConfidenceMessages || line in FluencyMessages || (|line| > 0 && line[0] == 'R')
    ensures !IsEncouragement(line)
  {
    if IsEncouragement(line) {
      EncouragementShape(line);
    }
  }

  /** The filler part of `generateFeedback`: for a non-empty transcript,
      the scan and the hesitation ratio, and the line when the ratio is
      above 10. */
  method FillerLines(r: SpeechAnalysisResult, transcript: Option<string>) returns (lines: seq<string>)
    ensures lines == FillerFeedback(r, transcript)
  {
    lines := [];
    if transcript.Some? && transcript.value != "" {
      var fillers := DetectArabicFillers(transcript.value);
      var hesitationRatio := CalculateHesitationRatio(transcript.value, r.duration);
      if hesitationRatio > 10.0 {
        var shown := if |fillers.words| <= 3 then fillers.words else fillers.words[..3];
        var line := "Reduce filler words (found " + Text.NatToString(fillers.count)
                    + " fillers: " + Text.Join(Words(shown), ", ") + "...)";
        assert line == FillerLine(transcript.value);
        lines := [line];
      }
    }
  }

  /** The confidence part of `generateFeedback`. */
  method ConfidenceLines(r: SpeechAnalysisResult) returns (lines: seq<string>)
    ensures lines == ConfidenceFeedback(r)
  {
    lines := [];
    if r.scores.confidence < 50.0 {
      if r.intensity.mean < 55.0 {
        lines := lines + [LouderLine];
      }
      if r.pitch.coefficientOfVariation > 25.0 {
        lines := lines + [SteadierLine];
      }
      if r.voiceQuality.harmonicsToNoiseRatio < 10.0 {
        lines := lines + [ClearerLine];
      }
    } else if r.scores.confidence >= 80.0 {
      lines := lines + [ConfidencePraise];
    }
  }

  /** The fluency part of `generateFeedback`. */
  method FluencyLines(r: SpeechAnalysisResult) returns (lines: seq<string>)
    ensures lines == FluencyFeedback(r)
  {
    lines := [];
    if r.scores.fluency < 50.0 {
      if r.timing.pauseRatio > 40.0 {
        lines := lines + [PausesLine];
      }
      if r.timing.speechRate < 120.0 {
        lines := lines + [FasterLine];
      } else if r.timing.speechRate > 220.0 {
        lines := lines + [SlowerLine];
      }
    } else if r.scores.fluency >= 80.0 {
      lines := lines + [FluencyPraise];
    }
  }

  /** `generateFeedback`: confidence lines, fluency lines, the filler line,
      then the encouragement, pushed in that order. */
  method GenerateFeedback(r: SpeechAnalysisResult, transcript: Option<string>) returns (feedback: seq<string>)
    ensures feedback == Feedback(r, transcript)
  {
    var confidenceLines := ConfidenceLines(r);
    var fluencyLines := FluencyLines(r);
    var fillerLines := FillerLines(r, transcript);
    var closing := if r.scores.overall >= 70.0 then GreatWork
                   else if r.scores.overall >= 50.0 then GoodProgress
                   else KeepPracticing;
    feedback := confidenceLines + fluencyLines + fillerLines + [closing];
  }
}
