/** The end-of-session report: averages of the analyses of one session,
    the session length in minutes and seconds, the five instructor
    messages, the letter grade, the performance level, the progress
    indicators and the strengths and development areas. Only the numbers
    and the choices behind the page are modelled, not its layout. */
module SessionReport {
  import JsNumber
  import opened SpeechAnalysis

  /** The seven averages, each rounded by `Math.round`. */
  datatype Averages = Averages(confidence: int, fluency: int, overall: int, speechRate: int,
                               pauseRatio: int, pitch: int, intensity: int)

  /** The seven figures of an analysis that the report averages. */
  datatype Metric = Confidence | Fluency | Overall | SpeechRate | PauseRatio | Pitch | Intensity

  function Value(r: SpeechAnalysisResult, m: Metric): real
  {
    match m
    case Confidence => r.scores.confidence
    case Fluency => r.scores.fluency
    case Overall => r.scores.overall
    case SpeechRate => r.timing.speechRate
    case PauseRatio => r.timing.pauseRatio
    case Pitch => r.pitch.mean
    case Intensity => r.intensity.mean
  }

  /** The `reduce` that adds up one metric, from the first analysis on. */
  function SumOf(rs: seq<SpeechAnalysisResult>, m: Metric): real
  {
    if |rs| == 0 then 0.0 else SumOf(rs[..|rs| - 1], m) + Value(rs[|rs| - 1], m)
  }

  function AverageOf(rs: seq<SpeechAnalysisResult>, m: Metric): int
    requires |rs| > 0
  {
    JsNumber.RoundHalfUp(SumOf(rs, m) / |rs| as real)
  }

  /** `calculateAverages`: all zero for a session without analyses,
      otherwise each metric's sum over the count, rounded. */
  function CalculateAverages(rs: seq<SpeechAnalysisResult>): (a: Averages)
    ensures |rs| == 0 ==> a == Averages(0, 0, 0, 0, 0, 0, 0)
    ensures |rs| > 0 ==>
      a.confidence == AverageOf(rs, Confidence) && a.fluency == AverageOf(rs, Fluency)
      && a.overall == AverageOf(rs, Overall) && a.speechRate == AverageOf(rs, SpeechRate)
      && a.pauseRatio == AverageOf(rs, PauseRatio) && a.pitch == AverageOf(rs, Pitch)
      && a.intensity == AverageOf(rs, Intensity)
  {
    if |rs| == 0 then Averages(0, 0, 0, 0, 0, 0, 0)
    else Averages(AverageOf(rs, Confidence), AverageOf(rs, Fluency), AverageOf(rs, Overall),
                  AverageOf(rs, SpeechRate), AverageOf(rs, PauseRatio), AverageOf(rs, Pitch),
                  AverageOf(rs, Intensity))
  }

  lemma {:induction false} SumWithin(rs: seq<SpeechAnalysisResult>, m: Metric, lo: real, hi: real)
    requires forall i :: 0 <= i < |rs| ==> lo <= Value(rs[i], m) <= hi
    ensures |rs| as real * lo <= SumOf(rs, m) <= |rs| as real * hi
  {
    if |rs| > 0 {
      var init := rs[..|rs| - 1];
      var total, v := SumOf(init, m), Value(rs[|rs| - 1], m);
      SumWithin(init, m, lo, hi);
      JsNumber.AddWithin(total, |init| as real, v, lo, hi);
      assert SumOf(rs, m) == total + v;
    }
  }

  /** An average lies between any whole bounds of the values it averages;
      in particular a metric that has the same whole value in every
      analysis averages to that value. */
  lemma AverageWithin(rs: seq<SpeechAnalysisResult>, m: Metric, lo: int, hi: int)
    requires |rs| > 0
    requires forall i :: 0 <= i < |rs| ==> lo as real <= Value(rs[i], m) <= hi as real
    ensures lo <= AverageOf(rs, m) <= hi
  {
    var n := |rs| as real;
    SumWithin(rs, m, lo as real, hi as real);
    JsNumber.DivWithin(SumOf(rs, m), n, lo as real, hi as real);
  }

  /** A speech rate of 150 to 200 syllables per minute is optimal, the same
      range in the feedback, the progress indicator and the strengths. */
  predicate OptimalRate(rate: int)
  {
    150 <= rate <= 200
  }

  const ExcellentOverall := "Excellent performance! You demonstrated strong Arabic speaking skills."
  const GoodOverall := "Good progress! You are developing solid Arabic conversation abilities."
  const SteadyOverall := "Keep practicing! You are making steady improvement in your Arabic skills."
  const ContinueOverall := "Continue your efforts! Regular practice will help you improve significantly."
  const StrongConfidence := "Your confidence shines through with clear, steady voice projection."
  const ProjectConfidence := "Work on projecting your voice more confidently when speaking."
  const LouderConfidence := "Focus on speaking louder and with more conviction to build confidence."
  const NaturalFluency := "Your speech flows naturally with good rhythm and minimal hesitation."
  const PaceFluency := "Try to reduce pauses and maintain a more consistent speaking pace."
  const PhrasesFluency := "Practice speaking in longer phrases without frequent stops."
  const ExcellentPace := "Your speaking pace is excellent - neither too fast nor too slow."
  const FasterPace := "Try to speak a bit faster to sound more natural and conversational."
  const SlowerPace := "Slow down slightly to improve clarity and comprehension."
  const MinimalPauses := "Great job maintaining continuous speech with minimal pauses!"
  const GoodContinuity := "Good speech continuity. Try to reduce thinking pauses further."
  const PlanAhead := "Focus on planning ahead to reduce long pauses between words."

  function OverallMessage(overall: int): string
  {
    if overall >= 80 then ExcellentOverall else if overall >= 60 then GoodOverall
    else if overall >= 40 then SteadyOverall else ContinueOverall
  }

  function ConfidenceMessage(confidence: int): string
  {
    if confidence >= 75 then StrongConfidence else if confidence >= 50 then ProjectConfidence else LouderConfidence
  }

  function FluencyMessage(fluency: int): string
  {
    if fluency >= 75 then NaturalFluency else if fluency >= 50 then PaceFluency else PhrasesFluency
  }

  function PaceMessage(rate: int): string
  {
    if rate >= 150 && rate <= 200 then ExcellentPace else if rate < 150 then FasterPace else SlowerPace
  }

  function PauseMessage(pauseRatio: int): string
  {
    if pauseRatio < 20 then MinimalPauses else if pauseRatio < 30 then GoodContinuity else PlanAhead
  }

  /** The five messages, one per category, in the order overall, confidence,
      fluency, speech rate, pauses. */
  function TeacherFeedback(a: Averages): seq<string>
  {
    [OverallMessage(a.overall), ConfidenceMessage(a.confidence), FluencyMessage(a.fluency),
     PaceMessage(a.speechRate), PauseMessage(a.pauseRatio)]
  }

  /** The overall section of `generateTeacherFeedback`. */
  method PushOverall(feedback: seq<string>, overall: int) returns (pushed: seq<string>)
    ensures pushed == feedback + [OverallMessage(overall)]
  {
    if overall >= 80 {
      pushed := feedback + [ExcellentOverall];
    } else if overall >= 60 {
      pushed := feedback + [GoodOverall];
    } else if overall >= 40 {
      pushed := feedback + [SteadyOverall];
    } else {
      pushed := feedback + [ContinueOverall];
    }
  }

  /** The confidence section of `generateTeacherFeedback`. */
  method PushConfidence(feedback: seq<string>, confidence: int) returns (pushed: seq<string>)
    ensures pushed == feedback + [ConfidenceMessage(confidence)]
  {
    if confidence >= 75 {
      pushed := feedback + [StrongConfidence];
    } else if confidence >= 50 {
      pushed := feedback + [ProjectConfidence];
    } else {
      pushed := feedback + [LouderConfidence];
    }
  }

  /** The fluency section of `generateTeacherFeedback`. */
  method PushFluency(feedback: seq<string>, fluency: int) returns (pushed: seq<string>)
    ensures pushed == feedback + [FluencyMessage(fluency)]
  {
    if fluency >= 75 {
      pushed := feedback + [NaturalFluency];
    } else if fluency >= 50 {
      pushed := feedback + [PaceFluency];
    } else {
      pushed := feedback + [PhrasesFluency];
    }
  }

  /** The speech-rate section of `generateTeacherFeedback`. */
  method PushPace(feedback: seq<string>, rate: int) returns (pushed: seq<string>)
    ensures pushed == feedback + [PaceMessage(rate)]
  {
    if rate >= 150 && rate <= 200 {
      pushed := feedback + [ExcellentPace];
    } else if rate < 150 {
      pushed := feedback + [FasterPace];
    } else {
      pushed := feedback + [SlowerPace];
    }
  }

  /** The pause section of `generateTeacherFeedback`. */
  method PushPauses(feedback: seq<string>, pauseRatio: int) returns (pushed: seq<string>)
    ensures pushed == feedback + [PauseMessage(pauseRatio)]
  {
    if pauseRatio < 20 {
      pushed := feedback + [MinimalPauses];
    } else if pauseRatio < 30 {
      pushed := feedback + [GoodContinuity];
    } else {
      pushed := feedback + [PlanAhead];
    }
  }

  /** `generateTeacherFeedback`: one push per category, in order. */
  method GenerateTeacherFeedback(a: Averages) returns (feedback: seq<string>)
    ensures feedback == TeacherFeedback(a)
  {
    feedback := [];
    feedback := PushOverall(feedback, a.overall);
    feedback := PushConfidence(feedback, a.confidence);
    feedback := PushFluency(feedback, a.fluency);
    feedback := PushPace(feedback, a.speechRate);
    feedback := PushPauses(feedback, a.pauseRatio);
  }

  /** Always five messages, each from its own category's choices, and the
      pace message praises the pace exactly when the rate is optimal. */
  lemma TeacherFeedbackShape(a: Averages)
    ensures var fb := TeacherFeedback(a);
      |fb| == 5
      && fb[0] in {ExcellentOverall, GoodOverall, SteadyOverall, ContinueOverall}
      && fb[1] in {StrongConfidence, ProjectConfidence, LouderConfidence}
      && fb[2] in {NaturalFluency, PaceFluency, PhrasesFluency}
      && fb[3] in {ExcellentPace, FasterPace, SlowerPace}
      && fb[4] in {MinimalPauses, GoodContinuity, PlanAhead}
      && (fb[3] == ExcellentPace <==> OptimalRate(a.speechRate))
  {
  }

  const Grades: seq<string> := ["A+", "A", "A-", "B+", "B", "B-", "C+", "C", "C-", "D+", "D", "F"]

  /** The position of a score's grade in `Grades`: one step down for every
      five points below 90, down to 40. */
  function GradeRank(score: int): (k: nat)
    ensures k < |Grades|
  {
    if score >= 90 then 0 else if score < 40 then 11 else (89 - score) / 5 + 1
  }

  /** `getGrade`: twelve bands, from 'A+' at 90 and above down to 'F' below 40. */
  function Grade(score: int): (g: string)
    ensures g == Grades[GradeRank(score)]
  {
    if score >= 90 then "A+"
    else if score >= 85 then "A"
    else if score >= 80 then "A-"
    else if score >= 75 then "B+"
    else if score >= 70 then "B"
    else if score >= 65 then "B-"
    else if score >= 60 then "C+"
    else if score >= 55 then "C"
    else if score >= 50 then "C-"
    else if score >= 45 then "D+"
    else if score >= 40 then "D"
    else "F"
  }

  /** A higher score never gets a lower grade. */
  lemma GradeMonotone(s1: int, s2: int)
    requires s1 <= s2
    ensures GradeRank(s2) <= GradeRank(s1)
  {
    if 40 <= s1 && s2 < 90 {
      assert (89 - s2) / 5 <= (89 - s1) / 5;
    }
  }

  /** 'A+' exactly from 90 on, 'F' exactly below 40. */
  lemma GradeEnds(score: int)
    ensures Grade(score) == "A+" <==> score >= 90
    ensures Grade(score) == "F" <==> score < 40
  {
    var k := GradeRank(score);
    assert Grades[k] == "A+" ==> k == 0 by {
      if k != 0 { assert Grades[k] != "A+"; }
    }
    assert Grades[k] == "F" ==> k == 11 by {
      if k != 11 { assert Grades[k][0] != 'F'; }
    }
  }

  /** `getPerformanceLevel`: the five levels of the proficiency scale, at
      80, 60, 40 and 20. */
  function PerformanceLevel(score: int): (s: string)
    ensures s == ProficiencyLabels[Band(score as real)]
  {
    if score >= 80 then "Advanced"
    else if score >= 60 then "Intermediate-High"
    else if score >= 40 then "Intermediate"
    else if score >= 20 then "Novice-High"
    else "Novice"
  }

  /** The three progress indicators; `true` is a check mark. */
  datatype Indicators = Indicators(optimalRate: bool, pauseManagement: bool, voiceConfidence: bool)

  function ProgressIndicators(a: Averages): Indicators
  {
    Indicators(a.speechRate >= 150 && a.speechRate <= 200, a.pauseRatio < 30, a.confidence >= 70)
  }

  datatype Strength = StrongVoice | NaturalFlow | OptimalPace | PauseManagement | ConsistentPractice

  /** The "Strengths to Maintain" list, in page order. */
  function Strengths(a: Averages): seq<Strength>
  {
    (if a.confidence >= 70 then [StrongVoice] else [])
    + (if a.fluency >= 70 then [NaturalFlow] else [])
    + (if a.speechRate >= 150 && a.speechRate <= 200 then [OptimalPace] else [])
    + (if a.pauseRatio < 25 then [PauseManagement] else [])
    + (if a.confidence < 70 && a.fluency < 70 && (a.speechRate < 150 || a.speechRate > 200)
       then [ConsistentPractice] else [])
  }

  datatype Area = BuildConfidence | ImproveFlow | IncreasePace | SlowDown | ReducePauses | ChallengeYourself

  /** The "Areas for Development" list, in page order. */
  function Areas(a: Averages): seq<Area>
  {
    (if a.confidence < 70 then [BuildConfidence] else [])
    + (if a.fluency < 70 then [ImproveFlow] else [])
    + (if a.speechRate < 150 then [IncreasePace] else [])
    + (if a.speechRate > 200 then [SlowDown] else [])
    + (if a.pauseRatio >= 30 then [ReducePauses] else [])
    + (if a.confidence >= 70 && a.fluency >= 70 && a.speechRate >= 150 && a.speechRate <= 200
       then [ChallengeYourself] else [])
  }

  /** The optimal range means the same thing in all three places that use it:
      the pace message, the pace indicator and the pace strength. */
  lemma OptimalRateAgrees(a: Averages)
    ensures PaceMessage(a.speechRate) == ExcellentPace <==> OptimalRate(a.speechRate)
    ensures ProgressIndicators(a).optimalRate <==> OptimalRate(a.speechRate)
    ensures OptimalPace in Strengths(a) <==> OptimalRate(a.speechRate)
    ensures !OptimalRate(a.speechRate) <==> IncreasePace in Areas(a) || SlowDown in Areas(a)
  {
  }

  /** "Consistent practice" is the fallback strength: it is listed exactly
      when none of voice, flow and pace is; likewise "continue challenging
      yourself" is listed exactly when no area of voice, flow or pace is. So
      neither list is ever empty. */
  lemma FallbackItems(a: Averages)
    ensures ConsistentPractice in Strengths(a)
            <==> StrongVoice !in Strengths(a) && NaturalFlow !in Strengths(a) && OptimalPace !in Strengths(a)
    ensures ChallengeYourself in Areas(a)
            <==> BuildConfidence !in Areas(a) && ImproveFlow !in Areas(a)
                 && IncreasePace !in Areas(a) && SlowDown !in Areas(a)
    ensures |Strengths(a)| > 0 && |Areas(a)| > 0
  {
    FallbackStrength(a);
    FallbackArea(a);
  }

  lemma FallbackStrength(a: Averages)
    ensures ConsistentPractice in Strengths(a)
            <==> StrongVoice !in Strengths(a) && NaturalFlow !in Strengths(a) && OptimalPace !in Strengths(a)
  {
    var voice := if a.confidence >= 70 then [StrongVoice] else [];
    var flow := if a.fluency >= 70 then [NaturalFlow] else [];
    var pace := if a.speechRate >= 150 && a.speechRate <= 200 then [OptimalPace] else [];
    var pauses := if a.pauseRatio < 25 then [PauseManagement] else [];
    var fallback := if a.confidence < 70 && a.fluency < 70 && (a.speechRate < 150 || a.speechRate > 200)
                    then [ConsistentPractice] else [];
    assert Strengths(a) == voice + flow + pace + pauses + fallback;
    assert StrongVoice in Strengths(a) <==> a.confidence >= 70;
    assert NaturalFlow in Strengths(a) <==> a.fluency >= 70;
    assert OptimalPace in Strengths(a) <==> a.speechRate >= 150 && a.speechRate <= 200;
    assert ConsistentPractice in Strengths(a) <==> fallback != [];
  }

  lemma FallbackArea(a: Averages)
    ensures ChallengeYourself in Areas(a)
            <==> BuildConfidence !in Areas(a) && ImproveFlow !in Areas(a)
                 && IncreasePace !in Areas(a) && SlowDown !in Areas(a)
  {
    AreaMembers(a);
  }

  /** Which areas are listed, one condition each. */
  lemma AreaMembers(a: Averages)
    ensures BuildConfidence in Areas(a) <==> a.confidence < 70
    ensures ImproveFlow in Areas(a) <==> a.fluency < 70
    ensures IncreasePace in Areas(a) <==> a.speechRate < 150
    ensures SlowDown in Areas(a) <==> a.speechRate > 200
    ensures ChallengeYourself in Areas(a)
            <==> a.confidence >= 70 && a.fluency >= 70 && a.speechRate >= 150 && a.speechRate <= 200
  {
    var voice := if a.confidence < 70 then [BuildConfidence] else [];
    var flow := if a.fluency < 70 then [ImproveFlow] else [];
    var slow := if a.speechRate < 150 then [IncreasePace] else [];
    var fast := if a.speechRate > 200 then [SlowDown] else [];
    var pauses := if a.pauseRatio >= 30 then [ReducePauses] else [];
    var fallback := if a.confidence >= 70 && a.fluency >= 70 && a.speechRate >= 150 && a.speechRate <= 200
                    then [ChallengeYourself] else [];
    var areas := voice + flow + slow + fast + pauses + fallback;
    assert Areas(a) == areas;
    assert forall x :: x in areas <==> x in voice || x in flow || x in slow || x in fast || x in pauses || x in fallback;
  }
}
