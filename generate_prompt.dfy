/**
 * The prompt builder: a letter input becomes the fixed seventeen-line instruction text sent
 * to the language model, with the emotion and tone labels, the character-count range, the
 * optional include and avoid clauses and the situation spliced into it.
 */
module GeneratePrompt {
  import opened Wrappers
  import opened TextOps
  import opened LetterTypes
  import opened MapLength

  /** What a template literal prints for a missing table entry. */
  const Undefined := "undefined"

  /** `EMOTION_LABELS[emotion]` as interpolated into the prompt: the label of a known code,
      and `undefined` for any other text. */
  function EmotionLabelText(code: string): (r: string)
    ensures ParseEmotion(code).Some? ==> r == EmotionLabels[ParseEmotion(code).value]
    ensures ParseEmotion(code).None? ==> r == Undefined
  {
    match ParseEmotion(code)
    case Some(e) => LabelMapsTotalAndInjective(); EmotionLabels[e]
    case None => Undefined
  }

  /** `TONE_LABELS[tone]` as interpolated into the prompt. */
  function ToneLabelText(code: string): (r: string)
    ensures ParseTone(code).Some? ==> r == ToneLabels[ParseTone(code).value]
    ensures ParseTone(code).None? ==> r == Undefined
  {
    match ParseTone(code)
    case Some(t) => LabelMapsTotalAndInjective(); ToneLabels[t]
    case None => Undefined
  }

  const IncludePrefix := "- 포함해야 할 문장: "
  const AvoidPrefix := "- 피해야 할 표현: "
  const NoneText := "없음"

  /** The clause for an optional text: the trimmed text in double quotes when it has any
      non-blank character, `없음` otherwise (an empty string is falsy, and trims to empty). */
  function Clause(prefix: string, value: Option<string>): string {
    if value.Some? && Trim(value.value) != "" then prefix + "\"" + Trim(value.value) + "\""
    else prefix + NoneText
  }

  /** A text that trims to nothing gives the clause of no text. */
  lemma ClauseOfBlank(prefix: string, v: string)
    requires Trim(v) == ""
    ensures Clause(prefix, Some(v)) == Clause(prefix, None)
  {
  }

  /** A non-empty text without surrounding whitespace is quoted as it is. */
  lemma ClauseQuotes(prefix: string, v: string)
    requires v != [] && Trim(v) == v
    ensures Clause(prefix, Some(v)) == prefix + "\"" + v + "\""
  {
  }

  /** A clause says `없음` exactly when the value is absent or blank, and otherwise quotes its
      trimmed text. */
  lemma ClauseCases(prefix: string, value: Option<string>)
    ensures Clause(prefix, value) == prefix + NoneText <==> value.None? || Trim(value.value) == ""
    ensures value.Some? && Trim(value.value) != "" ==>
      Clause(prefix, value) == prefix + "\"" + Trim(value.value) + "\""
  {
    if value.Some? && Trim(value.value) != "" {
      var quoted := prefix + "\"" + Trim(value.value) + "\"";
      assert quoted[|prefix|] == '"';
      assert (prefix + NoneText)[|prefix|] == '없';
    }
  }

  /** Surrounding whitespace on the include or avoid text never changes its clause. */
  lemma ClauseIgnoresPadding(prefix: string, w1: string, v: string, w2: string)
    requires AllWhitespace(w1) && AllWhitespace(w2)
    ensures Clause(prefix, Some(w1 + v + w2)) == Clause(prefix, Some(v))
  {
    TrimPadded(w1, v, w2);
  }

  // The fixed lines of the prompt. The first line of the instructions and of the closing
  // paragraph each end in two spaces. Long literals are written as concatenations of short
  // pieces, which the verifier reasons about far more cheaply than one long literal.
  const IntroLine1 := "너는 상대방의 감정과 " + "상황에 맞는 편지를 대신 " + "작성해주는 감정 " + "대필가야.  "
  const IntroLine2 := "사용자가 전달한 정보들을 " + "바탕으로, 진심을 담은 " + "편지를 한 편 써줘."
  const ClosingLine1 := "이 모든 조건을 바탕으로 " + "진정성 있고, 감정이 잘 " + "전달되며, 자연스러운 " + "한국어 편지를 작성해줘. " + " "
  const ClosingLine2 := "형식적인 문장보다는 " + "진심이 느껴지는 문장으로 " + "구성하고, 맥락 없이 " + "과도한 문학적 표현은 " + "자제해."
  const ClosingLine3 := "편지 내용만 작성하고, " + "다른 설명이나 주석은 " + "포함하지 마."

  /** The four lines before the constraints. */
  const PromptIntro: seq<string> := [IntroLine1, IntroLine2, "", "<제약 조건>"]

  /** The five constraint lines and the situation section that follows them. */
  function PromptBody(input: LetterInput): (lines: seq<string>)
    ensures |lines| == 8
  {
    [ "- 감정 유형: " + EmotionLabelText(input.emotion),
      "- 문체 스타일: " + ToneLabelText(input.tone),
      "- 편지 길이: " + MapLengthToCharCount(input.length),
      Clause(IncludePrefix, input.mustInclude),
      Clause(AvoidPrefix, input.mustAvoid),
      "",
      "<상황 설명>",
      input.situation
    ]
  }

  /** The five lines after the situation. */
  const PromptClosing: seq<string> := ["", ClosingLine1, ClosingLine2, "", ClosingLine3]

  /** The seventeen lines of the prompt, in order. */
  function PromptLines(input: LetterInput): (lines: seq<string>)
    ensures |lines| == 17
  {
    PromptIntro + PromptBody(input) + PromptClosing
  }

  lemma IntroLine1NewlineFree()
    ensures '\n' !in IntroLine1
  {
  }

  lemma IntroLine2NewlineFree()
    ensures '\n' !in IntroLine2
  {
  }

  lemma ClosingLine1NewlineFree()
    ensures '\n' !in ClosingLine1
  {
  }

  lemma ClosingLine2NewlineFree()
    ensures '\n' !in ClosingLine2
  {
  }

  lemma ClosingLine3NewlineFree()
    ensures '\n' !in ClosingLine3
  {
  }

  /** None of the fixed lines holds a newline. */
  lemma FixedLinesNewlineFree()
    ensures PartsAvoid(PromptIntro, '\n') && PartsAvoid(PromptClosing, '\n')
  {
    IntroLine1NewlineFree();
    IntroLine2NewlineFree();
    ClosingLine1NewlineFree();
    ClosingLine2NewlineFree();
    ClosingLine3NewlineFree();
  }

  /** The label texts hold no newline. */
  lemma EmotionLabelNewlineFree(code: string)
    ensures '\n' !in EmotionLabelText(code)
  {
    match ParseEmotion(code)
    case Some(e) => assert EmotionLabels[e] in EmotionLabels.Values;
    case None =>
  }

  lemma ToneLabelNewlineFree(code: string)
    ensures '\n' !in ToneLabelText(code)
  {
    match ParseTone(code)
    case Some(t) => assert ToneLabels[t] in ToneLabels.Values;
    case None =>
  }

  lemma RangeNewlineFree(code: string)
    ensures '\n' !in MapLengthToCharCount(code)
  {
  }

  /** A clause holds a newline only if the trimmed text it quotes does. */
  lemma ClauseNewlineFree(prefix: string, value: Option<string>)
    requires '\n' !in prefix
    requires value.Some? ==> '\n' !in Trim(value.value)
    ensures '\n' !in Clause(prefix, value)
  {
  }

  /** The emotion, tone and length lines hold no newline. */
  lemma LabelLinesNewlineFree(input: LetterInput)
    ensures var body := PromptBody(input);
      '\n' !in body[0] && '\n' !in body[1] && '\n' !in body[2]
  {
    EmotionLabelNewlineFree(input.emotion);
    RangeNewlineFree(input.length);
    ToneLabelNewlineFree(input.tone);
  }

  /** The computed lines hold no newline when the texts spliced into them hold none. */
  lemma BodyNewlineFree(input: LetterInput)
    requires '\n' !in input.situation
    requires input.mustInclude.Some? ==> '\n' !in Trim(input.mustInclude.value)
    requires input.mustAvoid.Some? ==> '\n' !in Trim(input.mustAvoid.value)
    ensures PartsAvoid(PromptBody(input), '\n')
  {
    LabelLinesNewlineFree(input);
    ClauseNewlineFree(IncludePrefix, input.mustInclude);
    ClauseNewlineFree(AvoidPrefix, input.mustAvoid);
  }

  /** `generatePromptFromInput`: the lines joined by newlines. */
  function GeneratePromptFromInput(input: LetterInput): (r: string)
    ensures Contains(r, input.situation)
  {
    PromptLinePositions(input);
    JoinContainsPart(PromptLines(input), "\n", 11);
    Join(PromptLines(input), "\n")
  }

  /** Where each rendered field sits among the seventeen lines. */
  lemma PromptLinePositions(input: LetterInput)
    ensures var lines := PromptLines(input);
      lines[3] == "<제약 조건>" &&
      lines[4] == "- 감정 유형: " + EmotionLabelText(input.emotion) &&
      lines[5] == "- 문체 스타일: " + ToneLabelText(input.tone) &&
      lines[6] == "- 편지 길이: " + MapLengthToCharCount(input.length) &&
      lines[7] == Clause(IncludePrefix, input.mustInclude) &&
      lines[8] == Clause(AvoidPrefix, input.mustAvoid) &&
      lines[10] == "<상황 설명>" &&
      lines[11] == input.situation
  {
    var body := PromptBody(input);
    var lines := PromptLines(input);
    ConcatSlices(PromptIntro, body, PromptClosing);
    var mid := lines[4..12];
    assert lines[3] == lines[..4][3] == PromptIntro[3];
    assert lines[4] == mid[0] == body[0];
    assert lines[5] == mid[1] == body[1];
    assert lines[6] == mid[2] == body[2];
    assert lines[7] == mid[3] == body[3];
    assert lines[8] == mid[4] == body[4];
    assert lines[10] == mid[6] == body[6];
    assert lines[11] == mid[7] == body[7];
  }

  /** The prompt reads back line by line: when the situation and the include and avoid texts
      hold no newline, splitting the prompt at newlines yields exactly its seventeen lines. */
  lemma {:induction false} PromptLinesRecoverable(input: LetterInput)
    requires '\n' !in input.situation
    requires input.mustInclude.Some? ==> '\n' !in Trim(input.mustInclude.value)
    requires input.mustAvoid.Some? ==> '\n' !in Trim(input.mustAvoid.value)
    ensures Split(GeneratePromptFromInput(input), "\n") == PromptLines(input)
  {
    var lines := PromptLines(input);
    FixedLinesNewlineFree();
    BodyNewlineFree(input);
    PartsAvoidConcat(PromptIntro, PromptBody(input), '\n');
    PartsAvoidConcat(PromptIntro + PromptBody(input), PromptClosing, '\n');
    SplitJoin(lines, "\n");
  }

  /** The closing lines follow the situation. */
  lemma PromptClosingFollowsSituation(input: LetterInput)
    ensures PromptLines(input)[12..] == PromptClosing
  {
    assert PromptLines(input) == (PromptIntro + PromptBody(input)) + PromptClosing;
  }

  /** The eleven lines before the situation do not depend on it. */
  lemma PromptHeadIgnoresSituation(input: LetterInput, other: string)
    ensures PromptLines(input)[..11] == PromptLines(input.(situation := other))[..11]
  {
    var body := PromptBody(input);
    assert PromptBody(input.(situation := other)) == body[7 := other];
    ConcatUpdate(PromptIntro, body, PromptClosing, 7, other);
    UpdateKeepsPrefix(PromptLines(input), 11, other);
  }

  /** The situation appears verbatim on its own line, between a head that does not depend on
      it and the fixed closing lines. */
  lemma SituationSpliced(input: LetterInput, other: string)
    ensures var head := Join(PromptLines(input)[..11], "\n");
      GeneratePromptFromInput(input) == head + "\n" + input.situation + "\n" + Join(PromptClosing, "\n") &&
      head == Join(PromptLines(input.(situation := other))[..11], "\n")
  {
    var lines := PromptLines(input);
    JoinAround(lines, "\n", 11);
    PromptLinePositions(input);
    PromptClosingFollowsSituation(input);
    PromptHeadIgnoresSituation(input, other);
  }

  /** The prompt depends on the input only through the two labels, the range, the two clauses
      and the situation. */
  lemma PromptDependsOnlyOnRenderedFields(a: LetterInput, b: LetterInput)
    requires EmotionLabelText(a.emotion) == EmotionLabelText(b.emotion)
    requires ToneLabelText(a.tone) == ToneLabelText(b.tone)
    requires MapLengthToCharCount(a.length) == MapLengthToCharCount(b.length)
    requires Clause(IncludePrefix, a.mustInclude) == Clause(IncludePrefix, b.mustInclude)
    requires Clause(AvoidPrefix, a.mustAvoid) == Clause(AvoidPrefix, b.mustAvoid)
    requires a.situation == b.situation
    ensures GeneratePromptFromInput(a) == GeneratePromptFromInput(b)
  {
  }

  /** Blank include and avoid texts render exactly like absent ones, and padding around a
      text renders exactly like the text alone. */
  lemma PromptBlankAndPadding(input: LetterInput, w1: string, v: string, w2: string)
    requires AllWhitespace(w1) && AllWhitespace(w2)
    ensures GeneratePromptFromInput(input.(mustInclude := Some(w1 + w2))) ==
            GeneratePromptFromInput(input.(mustInclude := None))
    ensures GeneratePromptFromInput(input.(mustAvoid := Some(w1 + w2))) ==
            GeneratePromptFromInput(input.(mustAvoid := None))
    ensures GeneratePromptFromInput(input.(mustInclude := Some(w1 + v + w2))) ==
            GeneratePromptFromInput(input.(mustInclude := Some(v)))
    ensures GeneratePromptFromInput(input.(mustAvoid := Some(w1 + v + w2))) ==
            GeneratePromptFromInput(input.(mustAvoid := Some(v)))
  {
    BlankClauses(w1, w2);
    ClauseIgnoresPadding(IncludePrefix, w1, v, w2);
    ClauseIgnoresPadding(AvoidPrefix, w1, v, w2);
    PromptDependsOnlyOnRenderedFields(input.(mustInclude := Some(w1 + w2)), input.(mustInclude := None));
    PromptDependsOnlyOnRenderedFields(input.(mustAvoid := Some(w1 + w2)), input.(mustAvoid := None));
    PromptDependsOnlyOnRenderedFields(input.(mustInclude := Some(w1 + v + w2)), input.(mustInclude := Some(v)));
    PromptDependsOnlyOnRenderedFields(input.(mustAvoid := Some(w1 + v + w2)), input.(mustAvoid := Some(v)));
  }

  /** A blank text gives the same clause as no text. */
  lemma BlankClauses(w1: string, w2: string)
    requires AllWhitespace(w1) && AllWhitespace(w2)
    ensures Clause(IncludePrefix, Some(w1 + w2)) == Clause(IncludePrefix, None)
    ensures Clause(AvoidPrefix, Some(w1 + w2)) == Clause(AvoidPrefix, None)
  {
    assert AllWhitespace(w1 + w2) by {
      forall k | 0 <= k < |w1 + w2| ensures IsJsWhitespace((w1 + w2)[k]) {
        if k >= |w1| {
          assert (w1 + w2)[k] == w2[k - |w1|];
        }
      }
    }
    TrimEmptyIffAllWhitespace(w1 + w2);
    ClauseOfBlank(IncludePrefix, w1 + w2);
    ClauseOfBlank(AvoidPrefix, w1 + w2);
  }

  /** `EXAMPLE_INPUTS`. */
  const ExampleInputs: seq<LetterInput> := [ExampleApology, ExampleConfession, ExampleCelebration]

  /** The first example's include sentence. */
  const ApologyInclude := "앞으로는 더 신중하게 행동하겠습니다"

  /** The sentence has no whitespace around it. */
  lemma ApologyIncludeUnpadded()
    ensures Trim(ApologyInclude) == ApologyInclude
  {
    TrimNoPadding(ApologyInclude);
  }

  const ExampleApology := LetterInput("apology", "polite", "medium",
    Some(ApologyInclude), Some("미안합니다"),
    "친구와 함께 프로젝트를 진행했는데, 제가 마감일을 놓쳐서 팀 전체가 곤란한 상황에 처했어요. 친구가 많이 실망했고, 저도 정말 후회스러워요. 다시 한번 기회를 달라고 사과하고 싶어요.")

  const ExampleConfession := LetterInput("confession", "emotional", "long", None, None,
    "같은 회사에서 2년간 함께 일한 동료에게 마음이 생겼어요. 처음에는 단순한 동료로만 생각했는데, 매일 만나면서 그의 따뜻함과 성실함에 점점 끌리게 되었어요. 이제는 더 이상 숨기고 싶지 않아서 고백하고 싶어요.")

  const ExampleCelebration := LetterInput("celebration", "friendly", "short", Some("정말 자랑스러워!"), None,
    "동생이 대학 입학시험에 합격했어요! 정말 기쁘고 자랑스러워요. 동생이 얼마나 열심히 공부했는지 다 봐왔는데, 그 노력이 결실을 맺어서 정말 기쁩니다.")

  /** The three example inputs use codes from the enumerations, and the first one's emotion
      renders as its label. */
  lemma ExampleInputsWellTyped()
    ensures forall k :: 0 <= k < |ExampleInputs| ==> WellTyped(ExampleInputs[k])
    ensures EmotionLabelText(ExampleApology.emotion) == "사과"
  {
    assert WellTyped(ExampleApology) && WellTyped(ExampleConfession) && WellTyped(ExampleCelebration);
  }

  /** The first example's prompt quotes its include text. */
  lemma ExampleApologyClause()
    ensures Clause(IncludePrefix, ExampleApology.mustInclude) == IncludePrefix + "\"" + ApologyInclude + "\""
  {
    ApologyIncludeUnpadded();
    ClauseQuotes(IncludePrefix, ApologyInclude);
  }

  /** The second example's prompt says it has no include text. */
  lemma ExampleConfessionClause()
    ensures Clause(IncludePrefix, ExampleConfession.mustInclude) == IncludePrefix + NoneText
  {
  }
}
