/** The speech-analysis service (`python-service/analyze.py`): from what
    Praat measures on an uploaded recording it derives the timing figures,
    a confidence score and a fluency score, and the endpoint wraps that in
    a content-type check. The measurements themselves (pitch, intensity and
    harmonicity tracks, jitter, shimmer, standard deviations) are inputs:
    Praat and NumPy are not part of the model. */
module Analyze {
  import opened Wrappers
  import JsNumber
  import Text
  import opened SpeechAnalysis

  /** What Praat reports for one recording. */
  datatype Measurements = Measurements(
    /** `sound.duration`, in seconds. */
    duration: real,
    /** The pitch track, one frequency per 10 ms frame; 0 marks an unvoiced frame. */
    pitchTrack: seq<real>,
    /** `np.std` of the voiced pitch values. */
    pitchStd: real,
    /** The intensity track, one value per 10 ms frame. */
    intensityTrack: seq<real>,
    /** `np.std` of the positive intensity values. */
    intensityStd: real,
    /** The harmonicity track; `None` marks a NaN frame. */
    harmonicity: seq<Option<real>>,
    /** Local jitter, or `None` when the Praat call raised. */
    jitter: Option<real>,
    /** Local shimmer, or `None` when the Praat call raised. */
    shimmer: Option<real>)

  /** `values[values > 0]`. */
  function Positive(s: seq<real>): (p: seq<real>)
    ensures |p| <= |s|
    ensures forall i :: 0 <= i < |p| ==> p[i] > 0.0
    ensures |p| == 0 <==> forall i :: 0 <= i < |s| ==> s[i] <= 0.0
    ensures forall v :: v in p <==> v in s && v > 0.0
  {
    if |s| == 0 then []
    else if s[0] > 0.0 then [s[0]] + Positive(s[1..])
    else
      var rest := Positive(s[1..]);
      assert forall i :: 1 <= i < |s| ==> s[i] == s[1..][i - 1];
      rest
  }

  /** `values[~np.isnan(values)]`. */
  function Defined(s: seq<Option<real>>): (d: seq<real>)
    ensures |d| <= |s|
    ensures forall v :: v in d <==> Some(v) in s
    ensures |d| == |s| <==> forall i :: 0 <= i < |s| ==> s[i].Some?
  {
    if |s| == 0 then []
    else
      assert s == [s[0]] + s[1..];
      match s[0]
      case Some(v) => [v] + Defined(s[1..])
      case None => Defined(s[1..])
  }

  function Sum(s: seq<real>): real
  {
    if |s| == 0 then 0.0 else s[0] + Sum(s[1..])
  }

  /** `np.mean`. */
  function Mean(s: seq<real>): real
    requires |s| > 0
  {
    Sum(s) / |s| as real
  }

  lemma {:induction false} SumPositive(s: seq<real>)
    requires |s| > 0 && forall i :: 0 <= i < |s| ==> s[i] > 0.0
    ensures Sum(s) > 0.0
  {
    if |s| > 1 {
      SumPositive(s[1..]);
    }
  }

  /** The mean of positive values is positive, so once the unvoiced frames
      are dropped the `else 0` branch of the pitch variation is never taken. */
  lemma MeanPositive(s: seq<real>)
    requires |s| > 0 && forall i :: 0 <= i < |s| ==> s[i] > 0.0
    ensures Mean(s) > 0.0
  {
    SumPositive(s);
  }

  /** `np.min`. */
  function MinOf(s: seq<real>): (m: real)
    requires |s| > 0
    ensures m in s
    ensures forall i :: 0 <= i < |s| ==> m <= s[i]
  {
    if |s| == 1 then s[0]
    else
      var rest := MinOf(s[1..]);
      assert forall i :: 1 <= i < |s| ==> s[i] == s[1..][i - 1];
      if s[0] <= rest then s[0] else rest
  }

  /** `np.max`. */
  function MaxOf(s: seq<real>): (m: real)
    requires |s| > 0
    ensures m in s
    ensures forall i :: 0 <= i < |s| ==> s[i] <= m
  {
    if |s| == 1 then s[0]
    else
      var rest := MaxOf(s[1..]);
      assert forall i :: 1 <= i < |s| ==> s[i] == s[1..][i - 1];
      if s[0] >= rest then s[0] else rest
  }

  /** `np.sum(values > threshold)`. */
  function CountAbove(s: seq<real>, threshold: real): (n: nat)
    ensures n == |set i | 0 <= i < |s| && s[i] > threshold|
    ensures n <= |s|
    ensures n == |s| <==> forall i :: 0 <= i < |s| ==> s[i] > threshold
    ensures n == 0 <==> forall i :: 0 <= i < |s| ==> s[i] <= threshold
  {
    if |s| == 0 then 0
    else
      var init := s[..|s| - 1];
      var rest := CountAbove(init, threshold);
      AboveSnoc(s, threshold);
      rest + (if s[|s| - 1] > threshold then 1 else 0)
  }

  /** The indices above the threshold are those of all but the last element,
      plus the last one when it is above. */
  lemma AboveSnoc(s: seq<real>, threshold: real)
    requires |s| > 0
    ensures var init, last := s[..|s| - 1], |s| - 1;
      var prefix := set i | 0 <= i < |init| && init[i] > threshold;
      (set i | 0 <= i < |s| && s[i] > threshold)
        == prefix + (if s[last] > threshold then {last} else {})
      && last !in prefix
  {
    var init := s[..|s| - 1];
    assert forall i :: 0 <= i < |init| ==> init[i] == s[i];
  }

  /** Pitch variation in percent: the coefficient of variation. */
  function PitchCv(std: real, mean: real): real
  {
    if mean > 0.0 then std / mean * 100.0 else 0.0
  }

  /** A frame counts as speech when its intensity is above this. */
  function SilenceThreshold(meanIntensity: real): real
  {
    if meanIntensity > 0.0 then meanIntensity * 0.3 else 40.0
  }

  /** The timing figures, before rounding, from the number of speech frames,
      the number of frames and the duration. */
  function Timing(speechFrames: nat, totalFrames: nat, duration: real): (t: TimingMetrics)
    ensures t.speakingTime + t.silenceTime == duration
  {
    var speaking := if totalFrames > 0 then (speechFrames as real / totalFrames as real) * duration else 0.0;
    var silence := duration - speaking;
    var pause := if duration > 0.0 then silence / duration * 100.0 else 0.0;
    var syllables := if speaking > 0.0 then speaking / 0.2 else 0.0;
    var rate := if duration > 0.0 then (syllables * 60.0) / duration else 0.0;
    var articulation := if speaking > 0.0 then (syllables * 60.0) / speaking else 0.0;
    TimingMetrics(speaking, silence, pause, rate, articulation)
  }

  lemma FractionBounds(a: nat, b: nat, d: real)
    requires a <= b && b > 0 && d > 0.0
    ensures 0.0 <= (a as real / b as real) * d <= d
  {
    var q := a as real / b as real;
    assert 0.0 <= q <= 1.0;
    JsNumber.MulMonotone(q, 1.0, d);
    JsNumber.MulMonotone(0.0, q, d);
  }

  /** With no more speech frames than frames and a positive duration, the
      speaking time lies within the recording and the pause ratio is a
      percentage. */
  lemma TimingBounds(speechFrames: nat, totalFrames: nat, duration: real)
    requires speechFrames <= totalFrames && duration > 0.0
    ensures var t := Timing(speechFrames, totalFrames, duration);
      0.0 <= t.speakingTime <= duration && 0.0 <= t.silenceTime <= duration
      && 0.0 <= t.pauseRatio <= 100.0
  {
    var t := Timing(speechFrames, totalFrames, duration);
    if totalFrames > 0 {
      FractionBounds(speechFrames, totalFrames, duration);
    }
    var q := t.silenceTime / duration;
    assert 0.0 <= q <= 1.0 by {
      JsNumber.MulMonotone(0.0, q, duration);
      if q > 1.0 { JsNumber.MulStrict(1.0, q, duration); }
    }
  }

  /** The two rates only rescale the speaking time: an assumed syllable of
      0.2 s makes the speech rate 300 syllables per minute of speaking spread
      over the recording, and the articulation rate the constant 300 whenever
      there is any speaking at all. */
  lemma TimingRates(speechFrames: nat, totalFrames: nat, duration: real)
    requires speechFrames <= totalFrames && duration > 0.0
    ensures var t := Timing(speechFrames, totalFrames, duration);
      t.speechRate * duration == 300.0 * t.speakingTime
      && t.articulationRate == (if t.speakingTime > 0.0 then 300.0 else 0.0)
  {
    TimingBounds(speechFrames, totalFrames, duration);
    var t := Timing(speechFrames, totalFrames, duration);
    if t.speakingTime > 0.0 {
      var syllables := t.speakingTime / 0.2;
      assert syllables * 60.0 == 300.0 * t.speakingTime;
      assert t.speechRate == (300.0 * t.speakingTime) / duration;
      assert t.articulationRate == (300.0 * t.speakingTime) / t.speakingTime;
      assert (300.0 * t.speakingTime) / t.speakingTime == 300.0;
    }
  }

  /** `min(100, max(0, score))`. */
  function ClampScore(score: int): int
  {
    if score > 100 then 100 else if score < 0 then 0 else score
  }

  function IntensityPoints(meanIntensity: real): int
  {
    if meanIntensity >= 65.0 then 25 else if meanIntensity >= 55.0 then 15 else if meanIntensity >= 45.0 then 5 else 0
  }

  function StabilityPoints(pitchCv: real): int
  {
    if pitchCv < 10.0 then 25 else if pitchCv < 20.0 then 15 else if pitchCv < 30.0 then 5 else 0
  }

  function HarmonicityPoints(meanHnr: real): int
  {
    if meanHnr > 15.0 then 15 else if meanHnr > 10.0 then 8 else 0
  }

  function SteadinessPoints(jitter: real, shimmer: real): int
  {
    if jitter < 0.01 && shimmer < 0.05 then 10 else if jitter < 0.02 && shimmer < 0.1 then 5 else 0
  }

  /** The confidence score: 50 plus the points of the four criteria, capped
      at 100. */
  function ConfidenceScore(meanIntensity: real, pitchCv: real, meanHnr: real, jitter: real, shimmer: real): (c: int)
    ensures 50 <= c <= 100
  {
    ClampScore(50 + IntensityPoints(meanIntensity) + StabilityPoints(pitchCv)
               + HarmonicityPoints(meanHnr) + SteadinessPoints(jitter, shimmer))
  }

  /** `calculate_confidence_score`: the accumulator starts at 50 and each
      criterion adds its points. */
  method CalculateConfidenceScore(meanIntensity: real, pitchCv: real, meanHnr: real, jitter: real, shimmer: real)
    returns (score: int)
    ensures score == ConfidenceScore(meanIntensity, pitchCv, meanHnr, jitter, shimmer)
  {
    score := 50;
    if meanIntensity >= 65.0 {
      score := score + 25;
    } else if meanIntensity >= 55.0 {
      score := score + 15;
    } else if meanIntensity >= 45.0 {
      score := score + 5;
    }
    if pitchCv < 10.0 {
      score := score + 25;
    } else if pitchCv < 20.0 {
      score := score + 15;
    } else if pitchCv < 30.0 {
      score := score + 5;
    }
    if meanHnr > 15.0 {
      score := score + 15;
    } else if meanHnr > 10.0 {
      score := score + 8;
    }
    if jitter < 0.01 && shimmer < 0.05 {
      score := score + 10;
    } else if jitter < 0.02 && shimmer < 0.1 {
      score := score + 5;
    }
    score := if score > 100 then 100 else if score < 0 then 0 else score;
  }

  /** Louder, steadier-pitched, clearer and less jittery speech never scores
      lower. */
  lemma ConfidenceMonotone(i1: real, i2: real, cv1: real, cv2: real, h1: real, h2: real,
                           j1: real, j2: real, s1: real, s2: real)
    requires i1 <= i2 && cv2 <= cv1 && h1 <= h2 && j2 <= j1 && s2 <= s1
    ensures ConfidenceScore(i1, cv1, h1, j1, s1) <= ConfidenceScore(i2, cv2, h2, j2, s2)
  {
    assert IntensityPoints(i1) <= IntensityPoints(i2);
    assert StabilityPoints(cv1) <= StabilityPoints(cv2);
    assert HarmonicityPoints(h1) <= HarmonicityPoints(h2);
    assert SteadinessPoints(j1, s1) <= SteadinessPoints(j2, s2);
  }

  /** The speech-rate points: the full 35 exactly in the optimal range of
      150 to 200 syllables per minute, nothing exactly when there is no
      speech. */
  function RatePoints(speechRate: real): (p: int)
    ensures 0 <= p <= 35
    ensures p == 35 <==> 150.0 <= speechRate <= 200.0
    ensures p == 0 <==> speechRate <= 0.0
  {
    if 150.0 <= speechRate <= 200.0 then 35
    else if 120.0 <= speechRate <= 220.0 then 25
    else if 100.0 <= speechRate <= 250.0 then 15
    else if speechRate > 0.0 then 5
    else 0
  }

  function PausePoints(pauseRatio: real): int
  {
    if pauseRatio < 20.0 then 35 else if pauseRatio < 30.0 then 25 else if pauseRatio < 40.0 then 15
    else if pauseRatio < 50.0 then 5 else 0
  }

  function ArticulationPoints(articulationRate: real): int
  {
    if 180.0 <= articulationRate <= 250.0 then 30
    else if 150.0 <= articulationRate <= 280.0 then 20
    else if articulationRate > 100.0 then 10
    else 0
  }

  /** The fluency score: 50 plus the points of the three criteria, capped
      at 100. */
  function FluencyScore(speechRate: real, pauseRatio: real, articulationRate: real): (f: int)
    ensures 50 <= f <= 100
  {
    ClampScore(50 + RatePoints(speechRate) + PausePoints(pauseRatio) + ArticulationPoints(articulationRate))
  }

  /** `calculate_fluency_score`: the accumulator starts at 50 and each
      criterion adds its points. */
  method CalculateFluencyScore(speechRate: real, pauseRatio: real, articulationRate: real) returns (score: int)
    ensures score == FluencyScore(speechRate, pauseRatio, articulationRate)
  {
    score := 50;
    if 150.0 <= speechRate <= 200.0 {
      score := score + 35;
    } else if 120.0 <= speechRate <= 220.0 {
      score := score + 25;
    } else if 100.0 <= speechRate <= 250.0 {
      score := score + 15;
    } else if speechRate > 0.0 {
      score := score + 5;
    }
    if pauseRatio < 20.0 {
      score := score + 35;
    } else if pauseRatio < 30.0 {
      score := score + 25;
    } else if pauseRatio < 40.0 {
      score := score + 15;
    } else if pauseRatio < 50.0 {
      score := score + 5;
    }
    if 180.0 <= articulationRate <= 250.0 {
      score := score + 30;
    } else if 150.0 <= articulationRate <= 280.0 {
      score := score + 20;
    } else if articulationRate > 100.0 {
      score := score + 10;
    }
    score := if score > 100 then 100 else if score < 0 then 0 else score;
  }

  /** Fewer pauses never lower the fluency score. */
  lemma FluencyMonotoneInPauses(rate: real, p1: real, p2: real, articulation: real)
    requires p2 <= p1
    ensures FluencyScore(rate, p1, articulation) <= FluencyScore(rate, p2, articulation)
  {
    assert PausePoints(p1) <= PausePoints(p2);
  }

  /** Because the articulation rate of the service is the constant 300, the
      articulation criterion gives 10 points whenever anything was spoken and
      never its 20- or 30-point bands. */
  lemma ArticulationPointsOfTiming(speechFrames: nat, totalFrames: nat, duration: real)
    requires speechFrames <= totalFrames && duration > 0.0
    ensures var t := Timing(speechFrames, totalFrames, duration);
      ArticulationPoints(t.articulationRate) == if t.speakingTime > 0.0 then 10 else 0
  {
    TimingRates(speechFrames, totalFrames, duration);
  }

  const NoVoiceMessage: string := "Error analyzing audio: No voiced segments detected in audio"

  /** `analyze_audio_file`: the analysis record, every figure rounded to two
      decimals (jitter and shimmer to four), or the error raised when no
      frame is voiced. When the jitter call raises, shimmer is not measured
      either. */
  function AnalyzeAudioFile(m: Measurements): Result<SpeechAnalysisResult>
  {
    var voiced := Positive(m.pitchTrack);
    if |voiced| == 0 then Failure(NoVoiceMessage)
    else
      var meanPitch := Mean(voiced);
      var cv := PitchCv(m.pitchStd, meanPitch);
      var loud := Positive(m.intensityTrack);
      var meanIntensity := if |loud| > 0 then Mean(loud) else 0.0;
      var stdIntensity := if |loud| > 0 then m.intensityStd else 0.0;
      var maxIntensity := if |loud| > 0 then MaxOf(loud) else 0.0;
      var hnr := Defined(m.harmonicity);
      var meanHnr := if |hnr| > 0 then Mean(hnr) else 0.0;
      var jitter := m.jitter.GetOr(0.0);
      var shimmer := if m.jitter.Some? then m.shimmer.GetOr(0.0) else 0.0;
      var speechFrames := CountAbove(m.intensityTrack, SilenceThreshold(meanIntensity));
      var t := Timing(speechFrames, |m.intensityTrack|, m.duration);
      var confidence := ConfidenceScore(meanIntensity, cv, meanHnr, jitter, shimmer);
      var fluency := FluencyScore(t.speechRate, t.pauseRatio, t.articulationRate);
      Success(SpeechAnalysisResult(
        JsNumber.Round2(m.duration),
        RoundedPitch(voiced, m.pitchStd),
        IntensityMetrics(JsNumber.Round2(meanIntensity), JsNumber.Round2(stdIntensity), JsNumber.Round2(maxIntensity)),
        VoiceQualityMetrics(JsNumber.Round2(meanHnr), JsNumber.Round4(jitter), JsNumber.Round4(shimmer)),
        TimingMetrics(JsNumber.Round2(t.speakingTime), JsNumber.Round2(t.silenceTime), JsNumber.Round2(t.pauseRatio),
                      JsNumber.Round2(t.speechRate), JsNumber.Round2(t.articulationRate)),
        RoundedScores(confidence, fluency)))
  }

  /** The pitch figures of the record, each rounded to two decimals. */
  function RoundedPitch(voiced: seq<real>, pitchStd: real): PitchMetrics
    requires |voiced| > 0
  {
    var meanPitch := Mean(voiced);
    PitchMetrics(JsNumber.Round2(meanPitch), JsNumber.Round2(pitchStd), JsNumber.Round2(MinOf(voiced)),
                 JsNumber.Round2(MaxOf(voiced)), JsNumber.Round2(PitchCv(pitchStd, meanPitch)))
  }

  /** The scores of the record: confidence, fluency and their mean, each
      rounded to two decimals. */
  function RoundedScores(confidence: int, fluency: int): SpeechScores
  {
    SpeechScores(JsNumber.Round2(confidence as real), JsNumber.Round2(fluency as real),
                 JsNumber.Round2((confidence + fluency) as real / 2.0))
  }

  /** Whole-number scores come through the rounding unchanged, and so does
      their mean, a whole number or a half. */
  lemma RoundedScoresExact(confidence: int, fluency: int)
    ensures RoundedScores(confidence, fluency)
            == SpeechScores(confidence as real, fluency as real, (confidence + fluency) as real / 2.0)
  {
    Round2Whole(confidence);
    Round2Whole(fluency);
    Round2Half(confidence + fluency);
  }

  /** Rounding an integer to two decimals changes nothing. */
  lemma Round2Whole(n: int)
    ensures JsNumber.Round2(n as real) == n as real
  {
    var k := 100 * n;
    var x := k as real / 100 as real;
    assert k as real == 100.0 * n as real;
    assert x == n as real;
    JsNumber.RoundHalfEvenExact(k, 100);
    assert JsNumber.RoundHalfEven(x, 100) == x;
  }

  /** Nor does rounding an integer and a half. */
  lemma Round2Half(n: int)
    ensures JsNumber.Round2(n as real / 2.0) == n as real / 2.0
  {
    var k := 50 * n;
    var x := k as real / 100 as real;
    assert k as real == 50.0 * n as real;
    assert x == n as real / 2.0;
    JsNumber.RoundHalfEvenExact(k, 100);
    assert JsNumber.RoundHalfEven(x, 100) == x;
  }

  /** The analysis fails exactly when no pitch frame is voiced, with the
      wrapped message; otherwise both scores lie in [50, 100], are exactly
      the confidence and fluency scores of the measured features, and the
      overall score is their exact mean. */
  lemma AnalysisOutcome(m: Measurements)
    ensures AnalyzeAudioFile(m).Failure? <==> forall i :: 0 <= i < |m.pitchTrack| ==> m.pitchTrack[i] <= 0.0
    ensures AnalyzeAudioFile(m).Failure? ==> AnalyzeAudioFile(m).error == NoVoiceMessage
    ensures AnalyzeAudioFile(m).Success? ==>
      var s := AnalyzeAudioFile(m).value.scores;
      50.0 <= s.confidence <= 100.0 && 50.0 <= s.fluency <= 100.0
      && s.confidence == s.confidence.Floor as real && s.fluency == s.fluency.Floor as real
      && s.overall == (s.confidence + s.fluency) / 2.0
  {
    var voiced := Positive(m.pitchTrack);
    if |voiced| > 0 {
      var r := AnalyzeAudioFile(m).value;
      var loud := Positive(m.intensityTrack);
      var meanIntensity := if |loud| > 0 then Mean(loud) else 0.0;
      var hnr := Defined(m.harmonicity);
      var meanHnr := if |hnr| > 0 then Mean(hnr) else 0.0;
      var jitter := m.jitter.GetOr(0.0);
      var shimmer := if m.jitter.Some? then m.shimmer.GetOr(0.0) else 0.0;
      var t := Timing(CountAbove(m.intensityTrack, SilenceThreshold(meanIntensity)), |m.intensityTrack|, m.duration);
      var c := ConfidenceScore(meanIntensity, PitchCv(m.pitchStd, Mean(voiced)), meanHnr, jitter, shimmer);
      var f := FluencyScore(t.speechRate, t.pauseRatio, t.articulationRate);
      assert r.scores == RoundedScores(c, f);
      RoundedScoresExact(c, f);
    }
  }

  /** Once a voiced frame exists, the pitch variation is the standard
      deviation over the mean in percent (its `else 0` branch is dead). */
  lemma PitchVariation(m: Measurements)
    requires AnalyzeAudioFile(m).Success?
    ensures var voiced := Positive(m.pitchTrack);
      |voiced| > 0 && Mean(voiced) > 0.0
      && AnalyzeAudioFile(m).value.pitch.coefficientOfVariation
         == JsNumber.Round2(m.pitchStd / Mean(voiced) * 100.0)
  {
    var voiced := Positive(m.pitchTrack);
    RecordPitch(m);
    MeanPositive(voiced);
    RoundedCv(voiced, m.pitchStd);
  }

  lemma RecordPitch(m: Measurements)
    requires AnalyzeAudioFile(m).Success?
    ensures |Positive(m.pitchTrack)| > 0
    ensures AnalyzeAudioFile(m).value.pitch == RoundedPitch(Positive(m.pitchTrack), m.pitchStd)
  {}

  lemma RoundedCv(voiced: seq<real>, pitchStd: real)
    requires |voiced| > 0 && Mean(voiced) > 0.0
    ensures RoundedPitch(voiced, pitchStd).coefficientOfVariation == JsNumber.Round2(pitchStd / Mean(voiced) * 100.0)
  {
    assert PitchCv(pitchStd, Mean(voiced)) == pitchStd / Mean(voiced) * 100.0;
  }

  /** The reply of `POST /analyze`. */
  datatype Reply =
    | Analyzed(filename: Option<string>, results: SpeechAnalysisResult)
    | HttpError(status: int, detail: string)

  const NotAudioMessage: string := "File must be an audio file"

  /** `analyze_audio`: an upload whose content type is missing, empty or not
      `audio/...` is refused with 400 before anything is analysed; an
      analysis error becomes a 500 carrying its message; otherwise the
      reply carries the file name and the analysis. */
  function AnalyzeAudio(contentType: Option<string>, filename: Option<string>, m: Measurements): (reply: Reply)
    ensures reply == HttpError(400, NotAudioMessage)
            <==> contentType.None? || !Text.StartsWith(contentType.value, "audio/")
    ensures reply.HttpError? && reply.status == 500
            <==> contentType.Some? && Text.StartsWith(contentType.value, "audio/") && AnalyzeAudioFile(m).Failure?
    ensures reply.Analyzed? ==> AnalyzeAudioFile(m).Success? && reply.results == AnalyzeAudioFile(m).value
                                && reply.filename == filename
  {
    if contentType.None? || contentType.value == "" || !Text.StartsWith(contentType.value, "audio/") then
      HttpError(400, NotAudioMessage)
    else
      match AnalyzeAudioFile(m)
      case Failure(e) => HttpError(500, e)
      case Success(results) => Analyzed(filename, results)
  }
}
