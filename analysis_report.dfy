/**
 * `formatAnalysisResult`: the text that shows an analysis to the user. It has a header, one
 * line each for the emotion, tone, length and situation, and an include and an avoid line
 * when those texts are truthy.
 */
module AnalysisReport {
  import opened Wrappers
  import opened LetterTypes
  import opened AnalyzeInput

  /** The formatter's own label tables, keyed by code. */
  const ReportEmotionLabels: map<string, string> := map[
    "apology" := "사과", "confession" := "고백", "celebration" := "축하", "gratitude" := "감사",
    "comfort" := "위로", "encouragement" := "격려", "resignation" := "퇴사"]

  const ReportToneLabels: map<string, string> := map[
    "polite" := "정중한", "friendly" := "친근한", "formal" := "격식있는", "emotional" := "감성적인",
    "concise" := "간결한"]

  const ReportLengthLabels: map<string, string> := map["short" := "짧은", "medium" := "보통", "long" := "긴"]

  /** `labels[code] || code`: the label when there is a non-empty one, else the code itself. */
  function Shown(labels: map<string, string>, code: string): (r: string)
    ensures code in labels && labels[code] != "" ==> r == labels[code]
    ensures code !in labels ==> r == code
  {
    if code in labels && labels[code] != "" then labels[code] else code
  }

  /** The formatter's tables hold exactly the codes, each with the shared label. */
  lemma ReportEmotionLabelsAgree()
    ensures forall e: Emotion ::
      EmotionCode(e) in ReportEmotionLabels && ReportEmotionLabels[EmotionCode(e)] == EmotionLabels[e]
    ensures forall c :: c in ReportEmotionLabels ==> ParseEmotion(c).Some?
  {
    forall e: Emotion
      ensures EmotionCode(e) in ReportEmotionLabels && ReportEmotionLabels[EmotionCode(e)] == EmotionLabels[e]
    {
      match e
      case Apology =>
      case Confession =>
      case Celebration =>
      case Gratitude =>
      case Comfort =>
      case Encouragement =>
      case Resignation =>
    }
    ReportEmotionKeysAreCodes();
  }

  lemma ReportEmotionKeysAreCodes()
    ensures forall c :: c in ReportEmotionLabels ==> ParseEmotion(c).Some?
  {
    forall c | c in ReportEmotionLabels ensures ParseEmotion(c).Some? {
      var e :=
        if c == "apology" then Apology else if c == "confession" then Confession
        else if c == "celebration" then Celebration else if c == "gratitude" then Gratitude
        else if c == "comfort" then Comfort else if c == "encouragement" then Encouragement
        else Resignation;
      assert EmotionCode(e) == c;
      CodesRoundTrip(e, Polite, Short);
    }
  }

  lemma ReportToneLabelsAgree()
    ensures forall t: Tone :: ToneCode(t) in ReportToneLabels && ReportToneLabels[ToneCode(t)] == ToneLabels[t]
    ensures forall c :: c in ReportToneLabels ==> ParseTone(c).Some?
  {
    forall t: Tone ensures ToneCode(t) in ReportToneLabels && ReportToneLabels[ToneCode(t)] == ToneLabels[t] {
    }
    forall c | c in ReportToneLabels ensures ParseTone(c).Some? {
      CodesRoundTrip(Apology, Polite, Short);
      CodesRoundTrip(Apology, Friendly, Short);
      CodesRoundTrip(Apology, Formal, Short);
      CodesRoundTrip(Apology, Emotional, Short);
      CodesRoundTrip(Apology, Concise, Short);
    }
  }

  lemma ReportLengthLabelsAgree()
    ensures forall l: Length ::
      LengthCode(l) in ReportLengthLabels && ReportLengthLabels[LengthCode(l)] == LengthLabels[l]
    ensures forall c :: c in ReportLengthLabels ==> ParseLength(c).Some?
  {
    forall l: Length
      ensures LengthCode(l) in ReportLengthLabels && ReportLengthLabels[LengthCode(l)] == LengthLabels[l]
    {
    }
    forall c | c in ReportLengthLabels ensures ParseLength(c).Some? {
      CodesRoundTrip(Apology, Polite, Short);
      CodesRoundTrip(Apology, Polite, Medium);
      CodesRoundTrip(Apology, Polite, Long);
    }
  }

  /** A known code is shown by its label, shared with the letter types; any other text is
      shown as it is. */
  lemma ShownLabelOrCode(e: Emotion, t: Tone, l: Length, c: string)
    ensures Shown(ReportEmotionLabels, EmotionCode(e)) == EmotionLabels[e]
    ensures Shown(ReportToneLabels, ToneCode(t)) == ToneLabels[t]
    ensures Shown(ReportLengthLabels, LengthCode(l)) == LengthLabels[l]
    ensures ParseEmotion(c).None? ==> Shown(ReportEmotionLabels, c) == c
    ensures ParseTone(c).None? ==> Shown(ReportToneLabels, c) == c
    ensures ParseLength(c).None? ==> Shown(ReportLengthLabels, c) == c
  {
    ReportEmotionLabelsAgree();
    ReportToneLabelsAgree();
    ReportLengthLabelsAgree();
    LabelMapsTotalAndInjective();
  }

  // ---------------------------------------------------------------------------
  // The report
  // ---------------------------------------------------------------------------

  const Header: string := "📝 분석 결과:\n\n"
  const EmotionPrefix: string := "• 감정: "
  const TonePrefix: string := "• 문체: "
  const LengthPrefix: string := "• 길이: "
  const SituationPrefix: string := "• 상황: "
  const IncludePrefix: string := "• 포함할 문장: "
  const AvoidPrefix: string := "• 피할 표현: "

  /** The report's lines, in order, without their line breaks. The four fixed lines come
      first; the include line is there exactly when the include text is truthy, and the avoid
      line, last, exactly when the avoid text is. */
  function ReportLines(a: AnalysisResult): (lines: seq<string>)
    ensures |lines| == 4 + (if Truthy(a.mustInclude) then 1 else 0) + (if Truthy(a.mustAvoid) then 1 else 0)
    ensures lines[0] == EmotionPrefix + Shown(ReportEmotionLabels, a.emotion)
    ensures lines[1] == TonePrefix + Shown(ReportToneLabels, a.tone)
    ensures lines[2] == LengthPrefix + Shown(ReportLengthLabels, a.length)
    ensures lines[3] == SituationPrefix + a.situation
    ensures Truthy(a.mustInclude) ==> lines[4] == IncludePrefix + a.mustInclude.value
    ensures Truthy(a.mustAvoid) ==> lines[|lines| - 1] == AvoidPrefix + a.mustAvoid.value
  {
    [EmotionPrefix + Shown(ReportEmotionLabels, a.emotion),
     TonePrefix + Shown(ReportToneLabels, a.tone),
     LengthPrefix + Shown(ReportLengthLabels, a.length),
     SituationPrefix + a.situation]
    + (if Truthy(a.mustInclude) then [IncludePrefix + a.mustInclude.value] else [])
    + (if Truthy(a.mustAvoid) then [AvoidPrefix + a.mustAvoid.value] else [])
  }

  /** Every line followed by a line break. */
  function Terminated(lines: seq<string>): (r: string)
    ensures |lines| > 0 ==> |r| > 0 && r[|r| - 1] == '\n'
  {
    if lines == [] then "" else Terminated(lines[..|lines| - 1]) + lines[|lines| - 1] + "\n"
  }

  /** The report: the header, then every line with its line break. */
  function Report(a: AnalysisResult): (r: string)
    ensures |Header| < |r| && r[..|Header|] == Header && r[|r| - 1] == '\n'
  {
    Header + Terminated(ReportLines(a))
  }

  /** Appending one more line appends it and its line break to the text. */
  lemma TerminatedSnoc(lines: seq<string>, line: string)
    ensures Terminated(lines + [line]) == Terminated(lines) + line + "\n"
  {
    assert (lines + [line])[..|lines|] == lines;
  }

  /** `result` is the header followed by `lines`, each with its line break. */
  ghost predicate Built(result: string, lines: seq<string>) {
    result == Header + Terminated(lines)
  }

  lemma BuiltSnoc(result: string, lines: seq<string>, line: string)
    requires Built(result, lines)
    ensures Built(result + line + "\n", lines + [line])
  {
    TerminatedSnoc(lines, line);
    assert Header + (Terminated(lines) + line + "\n") == Header + Terminated(lines) + line + "\n";
  }

  /** `formatAnalysisResult`: the header, then each line appended with its line break. */
  method FormatAnalysisResult(a: AnalysisResult) returns (result: string)
    ensures result == Report(a)
    ensures result[..|Header|] == Header && result[|result| - 1] == '\n'
  {
    ghost var lines: seq<string> := [];
    result := Header;
    assert Built(result, lines);
    var line := EmotionPrefix + Shown(ReportEmotionLabels, a.emotion);
    BuiltSnoc(result, lines, line);
    result, lines := result + line + "\n", lines + [line];
    line := TonePrefix + Shown(ReportToneLabels, a.tone);
    BuiltSnoc(result, lines, line);
    result, lines := result + line + "\n", lines + [line];
    line := LengthPrefix + Shown(ReportLengthLabels, a.length);
    BuiltSnoc(result, lines, line);
    result, lines := result + line + "\n", lines + [line];
    line := SituationPrefix + a.situation;
    BuiltSnoc(result, lines, line);
    result, lines := result + line + "\n", lines + [line];
    if Truthy(a.mustInclude) {
      line := IncludePrefix + a.mustInclude.value;
      BuiltSnoc(result, lines, line);
      result, lines := result + line + "\n", lines + [line];
    }
    if Truthy(a.mustAvoid) {
      line := AvoidPrefix + a.mustAvoid.value;
      BuiltSnoc(result, lines, line);
      result, lines := result + line + "\n", lines + [line];
    }
    assert lines == ReportLines(a);
  }
}
