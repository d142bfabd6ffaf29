/**
 * The letter generator: the emotion templates and the length adjustment used when no model
 * is available, the model-backed generation with its error classification, and the wrapper
 * that falls back to the templates.
 */
module GenerateLetter {
  import opened Wrappers
  import opened TextOps
  import opened LetterTypes
  import opened GeneratePrompt
  import opened ApiKey
  import opened GenerationErrors

  // ---------------------------------------------------------------------------
  // Templates
  // ---------------------------------------------------------------------------

  // Long literals are written as concatenations of short pieces, which the verifier reasons
  // about far more cheaply than one long literal.

  /** The separator between the blocks of a template: one blank line. */
  const BlockSep := "\n\n"
  /** The signature placeholder every template ends with. */
  const Placeholder := "[이름]"
  /** What a long letter puts in place of the first placeholder. */
  const LongInsert := "\n\n새로운 시작을 응원합니다.\n\n[이름]"

  /** The fixed text of one emotion's template: the opening block, the blocks between the
      situation and the include slot, the slot's default sentence, and the block before the
      placeholder. */
  datatype TemplateText = TemplateText(
    opening: string,
    beforeSlot: seq<string>,
    defaultSentence: string,
    closing: string)

  // The seven templates.

  /** The apology template. */
  const ApologyText := TemplateText(
    "안녕하세요,",
    ["정말 " + "죄송합니다. " + "제가 한 " + "실수로 인해 " + "곤란한 상황이 " + "되었고, " + "마음이 " + "무겁습니다."],
    "앞으로는 더욱 " + "신중하게 " + "행동하겠습니다.",
    "다시 한번 " + "기회를 주시면 " + "감사하겠습니다.")

  /** The confession template. */
  const ConfessionText := TemplateText(
    "안녕하세요,",
    ["이 편지를 " + "쓰면서도 " + "마음이 " + "떨립니다. " + "당신을 " + "바라보는 제 " + "마음이 조금씩 " + "변해왔다는 " + "것을 " + "깨달았습니다.",
     "처음에는 " + "단순히 좋은 " + "동료라고만 " + "생각했습니다. " + "하지만 매일 " + "만나면서, " + "당신의 따뜻한 " + "모습에 점점 " + "마음이 끌리게 " + "되었습니다."],
    "이 마음을 " + "전하지 않으면 " + "평생 후회할 " + "것 같아서 " + "용기를 내어 " + "편지를 씁니다.",
    "답장을 기다리겠습니다.")

  /** The template for leaving a job. */
  const ResignationText := TemplateText(
    "안녕하세요,",
    ["그동안 함께 " + "일하며 배운 " + "것들이 " + "많았습니다."],
    "새로운 도전을 " + "응원합니다.",
    "건강하시고 행복하세요.")

  /** The congratulation template. */
  const CelebrationText := TemplateText(
    "축하합니다! 🎉",
    [],
    "정말 " + "자랑스럽고 " + "기쁩니다!",
    "앞으로도 더욱 " + "성공하시길 " + "바랍니다!")

  /** The thanks template. */
  const GratitudeText := TemplateText(
    "안녕하세요,",
    ["그동안 " + "보내주신 " + "관심과 도움에 " + "깊이 " + "감사드립니다."],
    "정말 감사합니다.",
    "앞으로도 더욱 " + "열심히 " + "하겠습니다.")

  /** The comfort template. */
  const ComfortText := TemplateText(
    "안녕하세요,",
    ["지금 많이 " + "힘들겠어요. " + "하지만 시간이 " + "모든 것을 " + "치유해줄 " + "거예요."],
    "당신이 혼자가 " + "아니라는 걸 " + "잊지 마세요.",
    "항상 응원하겠습니다.")

  /** The encouragement template. */
  const EncouragementText := TemplateText(
    "안녕하세요,",
    ["힘든 " + "시간이지만, " + "당신은 충분히 " + "해낼 수 " + "있어요."],
    "포기하지 " + "마세요. " + "당신을 " + "믿습니다.",
    "함께 이겨내요!")

  /** The template of each emotion; every one of them is plain. */
  function Texts(e: Emotion): (t: TemplateText)
    ensures PlainTexts(t)
  {
    match e
    case Apology => ApologyTextsPlain(); ApologyText
    case Confession => ConfessionTextsPlain(); ConfessionText
    case Resignation => ResignationTextsPlain(); ResignationText
    case Celebration => CelebrationTextsPlain(); CelebrationText
    case Gratitude => GratitudeTextsPlain(); GratitudeText
    case Comfort => ComfortTextsPlain(); ComfortText
    case Encouragement => EncouragementTextsPlain(); EncouragementText
  }

  /** `mustInclude ? mustInclude : default`: an empty string is falsy, but untrimmed
      whitespace is kept. */
  function Slot(mustInclude: Option<string>, default: string): (r: string)
    ensures mustInclude.Some? && mustInclude.value != "" ==> r == mustInclude.value
    ensures mustInclude.None? || mustInclude.value == "" ==> r == default
  {
    if mustInclude.Some? && mustInclude.value != "" then mustInclude.value else default
  }

  /** The blocks of a template, in order. */
  function Blocks(t: TemplateText, situation: string, mustInclude: Option<string>): (blocks: seq<string>)
    ensures |blocks| >= 5 && blocks[0] == t.opening && blocks[1] == situation
    ensures blocks[|blocks| - 1] == Placeholder && blocks[|blocks| - 2] == t.closing
    ensures blocks[|blocks| - 3] == Slot(mustInclude, t.defaultSentence)
  {
    [t.opening, situation] + t.beforeSlot + [Slot(mustInclude, t.defaultSentence), t.closing, Placeholder]
  }

  /** `templates[emotion] || templates.gratitude`: the template of a known code, and the
      gratitude template for any other text. */
  function TemplateKey(code: string): (e: Emotion)
    ensures ParseEmotion(code).Some? ==> e == ParseEmotion(code).value
    ensures ParseEmotion(code).None? ==> e == Gratitude
  {
    ParseEmotion(code).GetOr(Gratitude)
  }

  /** The template text, blocks joined by blank lines. It holds the situation verbatim and
      ends with the signature placeholder. */
  function Template(input: LetterInput): (r: string)
    ensures Contains(r, input.situation)
    ensures EndsWith(r, Placeholder)
  {
    var blocks := Blocks(Texts(TemplateKey(input.emotion)), input.situation, input.mustInclude);
    JoinContainsPart(blocks, BlockSep, 1);
    assert blocks == blocks[..|blocks| - 1] + [Placeholder];
    JoinSnoc(blocks[..|blocks| - 1], Placeholder, BlockSep);
    Join(blocks, BlockSep)
  }

  /** What the dummy letter is: a short letter keeps only the opening and the placeholder, a
      long one has the insert in place of the first placeholder, and any other length code
      gets the template as it is. Whatever the length, the letter ends with the signature
      placeholder. */
  function DummyLetter(input: LetterInput): (r: string)
    ensures EndsWith(r, Placeholder)
  {
    if input.length == "short" then Texts(TemplateKey(input.emotion)).opening + BlockSep + Placeholder
    else if input.length == "long" then
      assert Placeholder[1..] == "이름]";
      assert EndsWith(LongInsert, Placeholder);
      ReplaceFirstKeepsSuffix(Template(input), Placeholder, LongInsert);
      ReplaceFirst(Template(input), Placeholder, LongInsert)
    else Template(input)
  }

  /** The template letter never depends on the tone or the text to avoid, and a short one
      depends on neither the situation nor the include text. */
  lemma DummyLetterIgnoresUnusedFields(input: LetterInput, t: string, a: Option<string>, s: string, m: Option<string>)
    ensures DummyLetter(input.(tone := t, mustAvoid := a)) == DummyLetter(input)
    ensures input.length == "short" ==> DummyLetter(input.(situation := s, mustInclude := m)) == DummyLetter(input)
  {
  }

  /** An include text of whitespace only is no text for the prompt, but the template letter
      puts it in the slot as it is. */
  lemma BlankIncludeKeptInLetter(input: LetterInput, w: string)
    requires input.mustInclude == Some(w) && w != "" && AllWhitespace(w)
    requires input.length != "short" && input.length != "long"
    ensures Clause(IncludePrefix, input.mustInclude) == Clause(IncludePrefix, None)
    ensures Contains(DummyLetter(input), w)
  {
    TrimEmptyIffAllWhitespace(w);
    ClauseOfBlank(IncludePrefix, w);
    var blocks := Blocks(Texts(TemplateKey(input.emotion)), input.situation, input.mustInclude);
    JoinContainsPart(blocks, BlockSep, |blocks| - 3);
  }

  // ---------------------------------------------------------------------------
  // Facts about the fixed blocks
  // ---------------------------------------------------------------------------

  /** The properties of a template's fixed text the length adjustment relies on: the opening
      holds no newline, the closing block does not end in one, and no fixed block holds a
      bracket, so none can hold the placeholder. */
  predicate PlainTexts(t: TemplateText) {
    && '\n' !in t.opening && '[' !in t.opening
    && PartsAvoid(t.beforeSlot, '[') && '[' !in t.defaultSentence
    && t.closing != [] && t.closing[|t.closing| - 1] != '\n' && '[' !in t.closing
  }

  // One lemma per template, and per fixed block, keeps each literal check small.

  lemma ApologyBlock0Plain()
    ensures '[' !in ApologyText.beforeSlot[0]
  {
  }

  lemma ApologyTextsPlain()
    ensures PlainTexts(ApologyText)
  {
    ApologyBlock0Plain();
  }

  lemma ConfessionBlock0Plain()
    ensures '[' !in ConfessionText.beforeSlot[0]
  {
  }

  lemma ConfessionBlock1Plain()
    ensures '[' !in ConfessionText.beforeSlot[1]
  {
  }

  lemma ConfessionTextsPlain()
    ensures PlainTexts(ConfessionText)
  {
    ConfessionBlock0Plain();
    ConfessionBlock1Plain();
  }

  lemma ResignationBlock0Plain()
    ensures '[' !in ResignationText.beforeSlot[0]
  {
  }

  lemma ResignationTextsPlain()
    ensures PlainTexts(ResignationText)
  {
    ResignationBlock0Plain();
  }

  lemma CelebrationTextsPlain()
    ensures PlainTexts(CelebrationText)
  {
  }

  lemma GratitudeBlock0Plain()
    ensures '[' !in GratitudeText.beforeSlot[0]
  {
  }

  lemma GratitudeTextsPlain()
    ensures PlainTexts(GratitudeText)
  {
    GratitudeBlock0Plain();
  }

  lemma ComfortBlock0Plain()
    ensures '[' !in ComfortText.beforeSlot[0]
  {
  }

  lemma ComfortTextsPlain()
    ensures PlainTexts(ComfortText)
  {
    ComfortBlock0Plain();
  }

  lemma EncouragementBlock0Plain()
    ensures '[' !in EncouragementText.beforeSlot[0]
  {
  }

  lemma EncouragementTextsPlain()
    ensures PlainTexts(EncouragementText)
  {
    EncouragementBlock0Plain();
  }

  /** A block without a bracket cannot hold the placeholder. */
  lemma NoBracketNoPlaceholder(s: string)
    requires '[' !in s
    ensures !Contains(s, Placeholder)
  {
    AbsentCharNotContained(s, Placeholder, 0);
  }

  // ---------------------------------------------------------------------------
  // The length adjustment
  // ---------------------------------------------------------------------------

  /** Everything after the opening splits into at least two pieces, the last being the
      placeholder. */
  lemma TemplateTailSplitEnds(t: TemplateText, situation: string, mustInclude: Option<string>)
    requires PlainTexts(t)
    ensures var parts := Split(Join(Blocks(t, situation, mustInclude)[1..], BlockSep), BlockSep);
      |parts| >= 2 && parts[|parts| - 1] == Placeholder
  {
    var rest := Blocks(t, situation, mustInclude)[1..];
    var mid := rest[..|rest| - 1];
    assert rest == mid + [Placeholder];
    JoinSnoc(mid, Placeholder, BlockSep);
    assert mid[|mid| - 1] == t.closing;
    JoinLastChar(mid, BlockSep);
    SplitSnoc(Join(rest, BlockSep), Join(mid, BlockSep), BlockSep, Placeholder, '\n');
  }

  /** Splitting a plain template at blank lines gives more than two pieces, the first being
      the opening and the last the placeholder, whatever the situation and include text hold. */
  lemma TemplateSplitEnds(t: TemplateText, situation: string, mustInclude: Option<string>)
    requires PlainTexts(t)
    ensures var parts := Split(Join(Blocks(t, situation, mustInclude), BlockSep), BlockSep);
      |parts| > 2 && parts[0] == t.opening && parts[|parts| - 1] == Placeholder
  {
    var blocks := Blocks(t, situation, mustInclude);
    var rest := blocks[1..];
    assert blocks == [t.opening] + rest;
    JoinCons(t.opening, rest, BlockSep);
    SplitAfterFreePrefix(t.opening, BlockSep, Join(rest, BlockSep));
    TemplateTailSplitEnds(t, situation, mustInclude);
  }

  /** `generateDummyLetter`: pick the template, then shorten it or lengthen it. */
  method GenerateDummyLetter(input: LetterInput) returns (result: string)
    ensures result == DummyLetter(input)
  {
    var t := Texts(TemplateKey(input.emotion));
    result := Join(Blocks(t, input.situation, input.mustInclude), BlockSep);
    if input.length == "short" {
      var lines := Split(result, BlockSep);
      TemplateSplitEnds(t, input.situation, input.mustInclude);
      if |lines| > 2 {
        result := lines[0] + BlockSep + lines[|lines| - 1];
      }
    } else if input.length == "long" {
      result := ReplaceFirst(result, Placeholder, LongInsert);
    }
  }

  /** In a plain template whose situation and include text do not hold the placeholder, the
      only placeholder is the closing one. */
  lemma PlaceholderOnlyAtEnd(t: TemplateText, situation: string, mustInclude: Option<string>)
    requires PlainTexts(t)
    requires !Contains(situation, Placeholder)
    requires mustInclude.Some? ==> !Contains(mustInclude.value, Placeholder)
    ensures var blocks := Blocks(t, situation, mustInclude);
      !Contains(Join(blocks[..|blocks| - 1], BlockSep) + BlockSep, Placeholder)
  {
    var blocks := Blocks(t, situation, mustInclude);
    var front := blocks[..|blocks| - 1];
    var slot := Slot(mustInclude, t.defaultSentence);
    forall k | 0 <= k < |front| ensures !Contains(front[k], Placeholder) {
      if k == 0 {
        NoBracketNoPlaceholder(t.opening);
      } else if k == 1 {
      } else if k < 2 + |t.beforeSlot| {
        assert front[k] == t.beforeSlot[k - 2];
        NoBracketNoPlaceholder(front[k]);
      } else if k == 2 + |t.beforeSlot| {
        assert front[k] == slot;
        if slot == t.defaultSentence {
          NoBracketNoPlaceholder(slot);
        }
      } else {
        assert front[k] == t.closing;
        NoBracketNoPlaceholder(front[k]);
      }
    }
    JoinNotContains(front, BlockSep, Placeholder);
    var x := Join(front, BlockSep) + BlockSep;
    ContainsAcrossSeparator(Join(front, BlockSep), BlockSep, "", Placeholder);
    assert x + "" == x;
    assert !Contains("", Placeholder);
  }

  /** When neither the situation nor the include text holds the placeholder, the long letter
      is the medium letter with its closing placeholder, and only that one, replaced by the
      insert. */
  lemma LongLetterReplacesClosingPlaceholder(input: LetterInput)
    requires input.length == "long"
    requires !Contains(input.situation, Placeholder)
    requires input.mustInclude.Some? ==> !Contains(input.mustInclude.value, Placeholder)
    ensures var medium := DummyLetter(input.(length := "medium"));
      |medium| >= |Placeholder| && medium[|medium| - |Placeholder|..] == Placeholder &&
      DummyLetter(input) == medium[..|medium| - |Placeholder|] + LongInsert
  {
    var e := TemplateKey(input.emotion);
    var t := Texts(e);
    var blocks := Blocks(t, input.situation, input.mustInclude);
    var front := blocks[..|blocks| - 1];
    assert blocks == front + [Placeholder];
    JoinSnoc(front, Placeholder, BlockSep);
    var x := Join(front, BlockSep) + BlockSep;
    assert Template(input) == x + Placeholder;
    PlaceholderOnlyAtEnd(t, input.situation, input.mustInclude);
    ReplaceTrailing(x, Placeholder, LongInsert);
    var medium := DummyLetter(input.(length := "medium"));
    assert medium == x + Placeholder;
    assert medium[..|x|] == x;
  }

  /** A letter of any length other than short or long is the template itself, so it holds the
      situation and the include slot's text verbatim. */
  lemma MediumLetterHoldsSituationAndSlot(input: LetterInput)
    requires input.length != "short" && input.length != "long"
    ensures DummyLetter(input) == Template(input)
    ensures Contains(DummyLetter(input), input.situation)
    ensures Contains(DummyLetter(input), Slot(input.mustInclude, Texts(TemplateKey(input.emotion)).defaultSentence))
  {
    var blocks := Blocks(Texts(TemplateKey(input.emotion)), input.situation, input.mustInclude);
    JoinContainsPart(blocks, BlockSep, 1);
    JoinContainsPart(blocks, BlockSep, |blocks| - 3);
  }

  /** The short celebration example from the prompt module comes out as the opening and the
      placeholder only, so its include text is dropped. */
  lemma ShortExampleDropsInclude()
    ensures DummyLetter(ExampleCelebration) == "축하합니다! 🎉\n\n[이름]"
    ensures !Contains(DummyLetter(ExampleCelebration), ExampleCelebration.mustInclude.value)
  {
    AbsentCharNotContained(DummyLetter(ExampleCelebration), ExampleCelebration.mustInclude.value, 0);
  }

  // ---------------------------------------------------------------------------
  // Model-backed generation
  // ---------------------------------------------------------------------------

  /** The outcome of `generateLetter` once the client slot is settled: `hasClient` says
      whether a client exists, `reply` is what the completion call returns. It succeeds
      exactly when a client exists and the first returned choice has non-empty content, and
      then yields that content trimmed; every failure carries one of the four errors, and only
      a thrown `Error` can carry one of the three specific ones. */
  function LetterOutcome(hasClient: bool, reply: ChatReply): (r: Result<string, GenerationError>)
    ensures r.Success? <==>
      hasClient && reply.Completion? && |reply.contents| > 0 &&
      reply.contents[0].Some? && reply.contents[0].value != ""
    ensures r.Success? ==> r.value == Trim(reply.contents[0].value)
    ensures r.Failure? && r.error != GenerationFailed ==>
      hasClient && reply.Rejected? && reply.thrown.ErrorValue?
    ensures hasClient && reply.Rejected? ==> r == Failure(Rethrown(reply.thrown))
  {
    InternalFailuresAreGeneric();
    if !hasClient then Failure(Rethrown(ErrorValue(NoClientMessage)))
    else match reply
      case Rejected(t) => Failure(Rethrown(t))
      case Completion(contents) =>
        if |contents| == 0 then Failure(Rethrown(ErrorValue(NoChoicesMessage)))
        else if contents[0].None? || contents[0].value == "" then
          Failure(Rethrown(ErrorValue(NoContentMessage)))
        else Success(Trim(contents[0].value))
  }

  /** `generateLetter`. The environment's key is `key`; the completion service is the total
      function `service` from the prompt to its reply. */
  method GenerateLetter(slot: ClientSlot, key: Option<string>, input: LetterInput,
                        service: string -> ChatReply)
    returns (r: Result<string, GenerationError>)
    modifies slot
    ensures slot.ready == (old(slot.ready) || UsableKey(key))
    ensures r == LetterOutcome(slot.ready, service(GeneratePromptFromInput(input)))
  {
    slot.EnsureInitialized(key);
    if !slot.ready {
      return Failure(Rethrown(ErrorValue(NoClientMessage)));
    }
    var prompt := GeneratePromptFromInput(input);
    var reply := service(prompt);
    if reply.Rejected? {
      return Failure(Rethrown(reply.thrown));
    }
    if |reply.contents| == 0 {
      return Failure(Rethrown(ErrorValue(NoChoicesMessage)));
    }
    var generated := reply.contents[0];
    if generated.None? || generated.value == "" {
      return Failure(Rethrown(ErrorValue(NoContentMessage)));
    }
    r := Success(Trim(generated.value));
  }

  /** What `generateLetterWithFallback` returns: the generated letter when a client exists
      and generation succeeds, the template letter otherwise. The result is always a text:
      the template letter or the trimmed first content of the reply. */
  function FallbackLetter(hasClient: bool, reply: ChatReply, input: LetterInput): (r: string)
    ensures !hasClient ==> r == DummyLetter(input)
    ensures hasClient && reply.Rejected? ==> r == DummyLetter(input)
    ensures r == DummyLetter(input) ||
      (reply.Completion? && |reply.contents| > 0 && reply.contents[0].Some? &&
       r == Trim(reply.contents[0].value))
    ensures r == (if hasClient && reply.Completion? && |reply.contents| > 0 &&
                     reply.contents[0].Some? && reply.contents[0].value != ""
                  then Trim(reply.contents[0].value) else DummyLetter(input))
  {
    if hasClient then
      match LetterOutcome(true, reply)
      case Success(letter) => letter
      case Failure(_) => DummyLetter(input)
    else DummyLetter(input)
  }

  /** Without a client the fallback ignores the service's reply entirely. */
  lemma FallbackCases(hasClient: bool, reply: ChatReply, other: ChatReply, input: LetterInput)
    ensures !hasClient ==> FallbackLetter(hasClient, reply, input) == FallbackLetter(hasClient, other, input)
  {
  }

  /** `generateLetterWithFallback`. */
  method GenerateLetterWithFallback(slot: ClientSlot, key: Option<string>, input: LetterInput,
                                    service: string -> ChatReply)
    returns (letter: string)
    modifies slot
    ensures slot.ready == (old(slot.ready) || UsableKey(key))
    ensures letter == FallbackLetter(slot.ready, service(GeneratePromptFromInput(input)), input)
  {
    slot.EnsureInitialized(key);
    if slot.ready {
      var r := GenerateLetter(slot, key, input, service);
      match r
      case Success(generated) => letter := generated;
      case Failure(_) => letter := GenerateDummyLetter(input);
    } else {
      letter := GenerateDummyLetter(input);
    }
  }
}
