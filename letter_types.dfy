/**
 * The code tables of the letter domain: the closed enumerations of emotions, tones and
 * lengths, their string codes, their display labels, and the letter input record.
 */
module LetterTypes {
  import opened Wrappers

  // ---------------------------------------------------------------------------
  // Enumerations and their codes
  // ---------------------------------------------------------------------------

  datatype Emotion = Apology | Confession | Resignation | Celebration | Gratitude | Comfort | Encouragement
  datatype Tone = Polite | Friendly | Formal | Emotional | Concise
  datatype Length = Short | Medium | Long

  /** Every emotion, in declaration order. */
  const AllEmotions: seq<Emotion> :=
    [Apology, Confession, Resignation, Celebration, Gratitude, Comfort, Encouragement]
  const AllTones: seq<Tone> := [Polite, Friendly, Formal, Emotional, Concise]
  const AllLengths: seq<Length> := [Short, Medium, Long]

  /** The string code an emotion travels as (the union member of `EmotionType`). */
  function EmotionCode(e: Emotion): string {
    match e
    case Apology => "apology"
    case Confession => "confession"
    case Resignation => "resignation"
    case Celebration => "celebration"
    case Gratitude => "gratitude"
    case Comfort => "comfort"
    case Encouragement => "encouragement"
  }

  function ToneCode(t: Tone): string {
    match t
    case Polite => "polite"
    case Friendly => "friendly"
    case Formal => "formal"
    case Emotional => "emotional"
    case Concise => "concise"
  }

  function LengthCode(l: Length): string {
    match l
    case Short => "short"
    case Medium => "medium"
    case Long => "long"
  }

  /** The emotion whose code is `s`, if any. */
  function ParseEmotion(s: string): (r: Option<Emotion>)
    ensures r.Some? ==> EmotionCode(r.value) == s
    ensures r.None? ==> forall e: Emotion :: EmotionCode(e) != s
  {
    if s == "apology" then Some(Apology)
    else if s == "confession" then Some(Confession)
    else if s == "resignation" then Some(Resignation)
    else if s == "celebration" then Some(Celebration)
    else if s == "gratitude" then Some(Gratitude)
    else if s == "comfort" then Some(Comfort)
    else if s == "encouragement" then Some(Encouragement)
    else None
  }

  function ParseTone(s: string): (r: Option<Tone>)
    ensures r.Some? ==> ToneCode(r.value) == s
    ensures r.None? ==> forall t: Tone :: ToneCode(t) != s
  {
    if s == "polite" then Some(Polite)
    else if s == "friendly" then Some(Friendly)
    else if s == "formal" then Some(Formal)
    else if s == "emotional" then Some(Emotional)
    else if s == "concise" then Some(Concise)
    else None
  }

  function ParseLength(s: string): (r: Option<Length>)
    ensures r.Some? ==> LengthCode(r.value) == s
    ensures r.None? ==> forall l: Length :: LengthCode(l) != s
  {
    if s == "short" then Some(Short)
    else if s == "medium" then Some(Medium)
    else if s == "long" then Some(Long)
    else None
  }

  /** Parsing a code gives back the value it encodes, so codes are pairwise distinct. */
  lemma CodesRoundTrip(e: Emotion, t: Tone, l: Length)
    ensures ParseEmotion(EmotionCode(e)) == Some(e)
    ensures ParseTone(ToneCode(t)) == Some(t)
    ensures ParseLength(LengthCode(l)) == Some(l)
  {
  }

  /** There are exactly 7 emotions, 5 tones and 3 lengths: each list is complete and has no
      repeats. */
  lemma EnumerationSizes()
    ensures |AllEmotions| == 7 && |AllTones| == 5 && |AllLengths| == 3
    ensures forall e: Emotion :: e in AllEmotions
    ensures forall t: Tone :: t in AllTones
    ensures forall l: Length :: l in AllLengths
    ensures forall i, j :: 0 <= i < j < |AllEmotions| ==> AllEmotions[i] != AllEmotions[j]
    ensures forall i, j :: 0 <= i < j < |AllTones| ==> AllTones[i] != AllTones[j]
    ensures forall i, j :: 0 <= i < j < |AllLengths| ==> AllLengths[i] != AllLengths[j]
  {
    forall e: Emotion ensures e in AllEmotions {
      match e
      case Apology => assert AllEmotions[0] == e;
      case Confession => assert AllEmotions[1] == e;
      case Resignation => assert AllEmotions[2] == e;
      case Celebration => assert AllEmotions[3] == e;
      case Gratitude => assert AllEmotions[4] == e;
      case Comfort => assert AllEmotions[5] == e;
      case Encouragement => assert AllEmotions[6] == e;
    }
    forall t: Tone ensures t in AllTones {
      match t
      case Polite => assert AllTones[0] == t;
      case Friendly => assert AllTones[1] == t;
      case Formal => assert AllTones[2] == t;
      case Emotional => assert AllTones[3] == t;
      case Concise => assert AllTones[4] == t;
    }
    forall l: Length ensures l in AllLengths {
      match l
      case Short => assert AllLengths[0] == l;
      case Medium => assert AllLengths[1] == l;
      case Long => assert AllLengths[2] == l;
    }
  }

  // ---------------------------------------------------------------------------
  // Display labels
  // ---------------------------------------------------------------------------

  /** `EMOTION_LABELS`. */
  const EmotionLabels: map<Emotion, string> := map[
    Apology := "사과",
    Confession := "고백",
    Resignation := "퇴사",
    Celebration := "축하",
    Gratitude := "감사",
    Comfort := "위로",
    Encouragement := "격려"
  ]

  /** `TONE_LABELS`. */
  const ToneLabels: map<Tone, string> := map[
    Polite := "정중한",
    Friendly := "친근한",
    Formal := "격식있는",
    Emotional := "감성적인",
    Concise := "간결한"
  ]

  /** `LENGTH_LABELS`. */
  const LengthLabels: map<Length, string> := map[
    Short := "짧은",
    Medium := "보통",
    Long := "긴"
  ]

  /** Each label map is total over its enumeration, and no two members share a label. */
  lemma LabelMapsTotalAndInjective()
    ensures forall e: Emotion :: e in EmotionLabels && EmotionLabels[e] != ""
    ensures forall t: Tone :: t in ToneLabels && ToneLabels[t] != ""
    ensures forall l: Length :: l in LengthLabels && LengthLabels[l] != ""
    ensures forall a: Emotion, b: Emotion :: EmotionLabels[a] == EmotionLabels[b] ==> a == b
    ensures forall a: Tone, b: Tone :: ToneLabels[a] == ToneLabels[b] ==> a == b
    ensures forall a: Length, b: Length :: LengthLabels[a] == LengthLabels[b] ==> a == b
  {
    EmotionLabelsTotalAndInjective();
    ToneLabelsTotalAndInjective();
    LengthLabelsTotalAndInjective();
  }

  lemma EmotionLabelsTotalAndInjective()
    ensures forall e: Emotion :: e in EmotionLabels && EmotionLabels[e] != ""
    ensures forall a: Emotion, b: Emotion :: EmotionLabels[a] == EmotionLabels[b] ==> a == b
  {
    forall e: Emotion ensures e in EmotionLabels {
      EnumerationSizes();
      assert e in AllEmotions;
    }
  }

  lemma ToneLabelsTotalAndInjective()
    ensures forall t: Tone :: t in ToneLabels && ToneLabels[t] != ""
    ensures forall a: Tone, b: Tone :: ToneLabels[a] == ToneLabels[b] ==> a == b
  {
    forall t: Tone ensures t in ToneLabels {
      EnumerationSizes();
      assert t in AllTones;
    }
  }

  lemma LengthLabelsTotalAndInjective()
    ensures forall l: Length :: l in LengthLabels && LengthLabels[l] != ""
    ensures forall a: Length, b: Length :: LengthLabels[a] == LengthLabels[b] ==> a == b
  {
    forall l: Length ensures l in LengthLabels {
      EnumerationSizes();
      assert l in AllLengths;
    }
  }

  // ---------------------------------------------------------------------------
  // The letter input record
  // ---------------------------------------------------------------------------

  /** `LetterInput`. The emotion, tone and length fields hold the code strings exactly as they
      reach the generators at run time: the form casts whatever text it holds into them. */
  datatype LetterInput = LetterInput(
    emotion: string,
    tone: string,
    length: string,
    mustInclude: Option<string>,
    mustAvoid: Option<string>,
    situation: string)

  /** The input's three codes are members of their enumerations. */
  predicate WellTyped(input: LetterInput) {
    ParseEmotion(input.emotion).Some? && ParseTone(input.tone).Some? && ParseLength(input.length).Some?
  }

  /** The input built from enumeration values, as typed code writes it. */
  function TypedInput(e: Emotion, t: Tone, l: Length, mustInclude: Option<string>,
                      mustAvoid: Option<string>, situation: string): (input: LetterInput)
    ensures WellTyped(input)
    ensures ParseEmotion(input.emotion) == Some(e) && ParseTone(input.tone) == Some(t)
    ensures ParseLength(input.length) == Some(l)
  {
    LetterInput(EmotionCode(e), ToneCode(t), LengthCode(l), mustInclude, mustAvoid, situation)
  }
}
