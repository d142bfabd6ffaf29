/**
 * The form logic of the letter-creation page: the six form fields, the validation errors,
 * the analysis kept from natural-language input, the change handlers, the restore of an
 * earlier request from the address bar, and the `LetterInput` handed to the generators.
 */
module CreateLetter {
  import opened Wrappers
  import opened TextOps
  import opened LetterTypes
  import opened ApiKey
  import opened AnalyzeInput
  import opened GeneratePrompt
  import opened GenerationErrors
  import opened GenerateLetter

  /** `LetterFormData`: every field is the text the page holds. */
  datatype FormData = FormData(
    emotion: string,
    situation: string,
    tone: string,
    length: string,
    avoidText: string,
    includeText: string)

  const EmptyForm: FormData := FormData("", "", "", "", "", "")

  /** `ValidationErrors`: a message per rejected field. */
  datatype ValidationErrors = ValidationErrors(
    emotion: Option<string>,
    situation: Option<string>,
    tone: Option<string>,
    length: Option<string>)

  const NoErrors: ValidationErrors := ValidationErrors(None, None, None, None)

  datatype InputMode = Manual | Natural

  const EmotionMissing: string := "감정을 선택해주세요."
  const SituationMissing: string := "상황 설명을 입력해주세요."
  const ToneMissing: string := "문체를 선택해주세요."
  const LengthMissing: string := "편지 길이를 선택해주세요."
  const AnalysisPending: string := "입력 분석이 완료되지 않았습니다. 잠시 기다려주세요."

  /** The query parameters an edit link carries; `None` is an absent parameter. */
  datatype UrlParams = UrlParams(
    emotion: Option<string>,
    tone: Option<string>,
    length: Option<string>,
    situation: Option<string>,
    mustInclude: Option<string>,
    mustAvoid: Option<string>)

  // ---------------------------------------------------------------------------
  // Validation
  // ---------------------------------------------------------------------------

  /** The errors `validateForm` records. A field is rejected when its trim is empty, that is,
      when it is all white space (`TrimEmptyIffAllWhitespace`). */
  function FormErrors(mode: InputMode, form: FormData, hasAnalysis: bool): (r: ValidationErrors)
    ensures r.emotion.Some? ==> mode == Manual && r.emotion == Some(EmotionMissing)
    ensures r.tone.Some? ==> mode == Manual && r.tone == Some(ToneMissing)
    ensures r.length.Some? ==> mode == Manual && r.length == Some(LengthMissing)
    ensures r.situation.Some? ==>
      r.situation == Some(SituationMissing) ||
      (mode == Natural && !hasAnalysis && r.situation == Some(AnalysisPending))
  {
    match mode
    case Manual =>
      ValidationErrors(
        if AllWhitespace(form.emotion) then Some(EmotionMissing) else None,
        if AllWhitespace(form.situation) then Some(SituationMissing) else None,
        if AllWhitespace(form.tone) then Some(ToneMissing) else None,
        if AllWhitespace(form.length) then Some(LengthMissing) else None)
    case Natural =>
      ValidationErrors(None,
        if !hasAnalysis then Some(AnalysisPending)
        else if AllWhitespace(form.situation) then Some(SituationMissing) else None,
        None, None)
  }

  /** By hand every one of the four fields must be more than white space; from natural
      language only the situation is checked, and a missing analysis replaces its message. */
  lemma FormErrorsCases(mode: InputMode, form: FormData, hasAnalysis: bool)
    ensures var errs := FormErrors(mode, form, hasAnalysis);
      mode == Manual ==>
        (errs.emotion.Some? <==> Trim(form.emotion) == "") &&
        (errs.situation.Some? <==> Trim(form.situation) == "") &&
        (errs.tone.Some? <==> Trim(form.tone) == "") &&
        (errs.length.Some? <==> Trim(form.length) == "")
    ensures var errs := FormErrors(mode, form, hasAnalysis);
      mode == Natural ==>
        errs.emotion.None? && errs.tone.None? && errs.length.None? &&
        (errs.situation.Some? <==> !hasAnalysis || Trim(form.situation) == "") &&
        (!hasAnalysis ==> errs.situation == Some(AnalysisPending))
  {
    TrimEmptyIffAllWhitespace(form.emotion);
    TrimEmptyIffAllWhitespace(form.situation);
    TrimEmptyIffAllWhitespace(form.tone);
    TrimEmptyIffAllWhitespace(form.length);
  }

  /** `isFormValid`, which enables the submit button: from natural language an analysis and a
      situation that is more than white space, by hand four non-empty fields. */
  predicate IsFormValid(mode: InputMode, form: FormData, hasAnalysis: bool) {
    match mode
    case Natural => hasAnalysis && |Trim(form.situation)| > 0
    case Manual => form.emotion != "" && form.situation != "" && form.tone != "" && form.length != ""
  }

  /** A form that passes validation enables the button in either mode; from natural language
      the two agree exactly. */
  lemma ValidationImpliesFormValid(mode: InputMode, form: FormData, hasAnalysis: bool)
    ensures FormErrors(mode, form, hasAnalysis) == NoErrors ==> IsFormValid(mode, form, hasAnalysis)
    ensures mode == Natural ==>
      (FormErrors(mode, form, hasAnalysis) == NoErrors <==> IsFormValid(mode, form, hasAnalysis))
  {
    TrimEmptyIffAllWhitespace(form.situation);
  }

  /** By hand the converse fails: fields of a single space enable the button, yet every one of
      them is rejected. */
  lemma BlankFieldsEnableButExpectErrors()
    ensures var form := FormData(" ", " ", " ", " ", "", "");
      IsFormValid(Manual, form, false) &&
      FormErrors(Manual, form, false) ==
        ValidationErrors(Some(EmotionMissing), Some(SituationMissing), Some(ToneMissing), Some(LengthMissing))
  {
    assert IsJsWhitespace(" "[0]);
  }

  /** The checks `handleSubmit` makes after a successful validation never fire: by hand the
      emotion is then non-empty, and from natural language an analysis exists. */
  lemma SubmitChecksRedundant(mode: InputMode, form: FormData, hasAnalysis: bool)
    requires FormErrors(mode, form, hasAnalysis) == NoErrors
    ensures mode == Manual ==> form.emotion != ""
    ensures mode == Natural ==> hasAnalysis
  {
  }

  // ---------------------------------------------------------------------------
  // Restoring, analysing and submitting
  // ---------------------------------------------------------------------------

  /** The restore effect: when any of emotion, tone, length or situation is given, every field
      takes its parameter when that is truthy and keeps its value otherwise; when none of the
      four is given, nothing changes, not even for an include or avoid parameter. */
  function Restored(prev: FormData, p: UrlParams): (r: FormData)
    ensures !Truthy(p.emotion) && !Truthy(p.tone) && !Truthy(p.length) && !Truthy(p.situation) ==>
      r == prev
    ensures Truthy(p.emotion) || Truthy(p.tone) || Truthy(p.length) || Truthy(p.situation) ==>
      (Truthy(p.emotion) ==> r.emotion == p.emotion.value) &&
      (!Truthy(p.emotion) ==> r.emotion == prev.emotion) &&
      (Truthy(p.tone) ==> r.tone == p.tone.value) &&
      (!Truthy(p.tone) ==> r.tone == prev.tone) &&
      (Truthy(p.length) ==> r.length == p.length.value) &&
      (!Truthy(p.length) ==> r.length == prev.length) &&
      (Truthy(p.situation) ==> r.situation == p.situation.value) &&
      (!Truthy(p.situation) ==> r.situation == prev.situation) &&
      (Truthy(p.mustInclude) ==> r.includeText == p.mustInclude.value) &&
      (!Truthy(p.mustInclude) ==> r.includeText == prev.includeText) &&
      (Truthy(p.mustAvoid) ==> r.avoidText == p.mustAvoid.value) &&
      (!Truthy(p.mustAvoid) ==> r.avoidText == prev.avoidText)
  {
    if Truthy(p.emotion) || Truthy(p.tone) || Truthy(p.length) || Truthy(p.situation) then
      FormData(
        OrElse(p.emotion, prev.emotion), OrElse(p.situation, prev.situation),
        OrElse(p.tone, prev.tone), OrElse(p.length, prev.length),
        OrElse(p.mustAvoid, prev.avoidText), OrElse(p.mustInclude, prev.includeText))
    else prev
  }

  /** Restoring twice from the same address is restoring once. */
  lemma RestoreIdempotent(prev: FormData, p: UrlParams)
    ensures Restored(Restored(prev, p), p) == Restored(prev, p)
  {
  }

  /** The form `handleAnalysisComplete` sets: the analysis' fields, an absent include or avoid
      text becoming the empty string. */
  function FormFromAnalysis(a: AnalysisResult): (form: FormData)
    ensures form.emotion == a.emotion && form.situation == a.situation
    ensures form.tone == a.tone && form.length == a.length
    ensures form.includeText == a.mustInclude.GetOr("") && form.avoidText == a.mustAvoid.GetOr("")
  {
    FormData(a.emotion, a.situation, a.tone, a.length, OrElse(a.mustAvoid, ""), OrElse(a.mustInclude, ""))
  }

  /** The `LetterInput` built in `handleSubmit`: empty include and avoid texts become absent,
      every other field is copied. */
  function LetterInputOf(form: FormData): (input: LetterInput)
    ensures input.emotion == form.emotion && input.tone == form.tone && input.length == form.length
    ensures input.situation == form.situation
    ensures input.mustInclude.None? <==> form.includeText == ""
    ensures input.mustInclude.Some? ==> input.mustInclude.value == form.includeText
    ensures input.mustAvoid.None? <==> form.avoidText == ""
    ensures input.mustAvoid.Some? ==> input.mustAvoid.value == form.avoidText
  {
    LetterInput(form.emotion, form.tone, form.length,
      if form.includeText == "" then None else Some(form.includeText),
      if form.avoidText == "" then None else Some(form.avoidText),
      form.situation)
  }

  /** An analysis carried into the form and on into a letter request keeps its codes and
      situation, and keeps its include and avoid texts when they are truthy, dropping them
      otherwise. */
  lemma AnalysisToLetterInput(a: AnalysisResult)
    ensures var input := LetterInputOf(FormFromAnalysis(a));
      input.emotion == a.emotion && input.tone == a.tone && input.length == a.length &&
      input.situation == a.situation &&
      input.mustInclude == (if Truthy(a.mustInclude) then a.mustInclude else None) &&
      input.mustAvoid == (if Truthy(a.mustAvoid) then a.mustAvoid else None)
  {
  }

  /** A basic analysis always yields a well-typed letter request. */
  lemma BasicAnalysisGivesTypedInput(userInput: string)
    ensures WellTyped(LetterInputOf(FormFromAnalysis(BasicAnalysis(userInput))))
  {
  }

  // ---------------------------------------------------------------------------
  // The page's state
  // ---------------------------------------------------------------------------

  /** `!s.trim()`: the text is all white space. */
  method TrimsToEmpty(s: string) returns (blank: bool)
    ensures blank <==> AllWhitespace(s)
  {
    TrimEmptyIffAllWhitespace(s);
    blank := Trim(s) == "";
  }

  class CreateLetterForm {
    var form: FormData
    var errors: ValidationErrors
    var analysis: Option<AnalysisResult>
    var analyzing: bool
    var mode: InputMode
    var loading: bool
    var error: Option<string>

    /** The page's initial state: an empty form, by hand. */
    constructor ()
      ensures form == EmptyForm && errors == NoErrors && analysis == None
      ensures !analyzing && mode == Manual && !loading && error == None
    {
      form := EmptyForm;
      errors := NoErrors;
      analysis := None;
      analyzing := false;
      mode := Manual;
      loading := false;
      error := None;
    }

    /** `validateForm`: records the errors field by field and reports whether there are none. */
    method ValidateForm() returns (ok: bool)
      modifies this
      ensures errors == FormErrors(mode, form, analysis.Some?)
      ensures ok <==> errors == NoErrors
      ensures form == old(form) && analysis == old(analysis) && analyzing == old(analyzing)
      ensures mode == old(mode) && loading == old(loading) && error == old(error)
    {
      var errs := NoErrors;
      if mode == Manual {
        var blank := TrimsToEmpty(form.emotion);
        if blank {
          errs := errs.(emotion := Some(EmotionMissing));
        }
        blank := TrimsToEmpty(form.situation);
        if blank {
          errs := errs.(situation := Some(SituationMissing));
        }
        blank := TrimsToEmpty(form.tone);
        if blank {
          errs := errs.(tone := Some(ToneMissing));
        }
        blank := TrimsToEmpty(form.length);
        if blank {
          errs := errs.(length := Some(LengthMissing));
        }
      } else {
        var blank := TrimsToEmpty(form.situation);
        if blank {
          errs := errs.(situation := Some(SituationMissing));
        }
        if analysis.None? {
          errs := errs.(situation := Some(AnalysisPending));
        }
      }
      errors := errs;
      ok := errs.emotion.None? && errs.situation.None? && errs.tone.None? && errs.length.None?;
    }

    /** The two mode buttons: only the input mode changes; the form, the errors and any
        analysis are kept. */
    method SetInputMode(m: InputMode)
      modifies this
      ensures mode == m
      ensures form == old(form) && errors == old(errors) && analysis == old(analysis)
      ensures analyzing == old(analyzing) && loading == old(loading) && error == old(error)
    {
      mode := m;
    }

    /** The restore effect for the given parameters. */
    method RestoreFromUrl(p: UrlParams)
      modifies this
      ensures form == Restored(old(form), p)
      ensures errors == old(errors) && analysis == old(analysis) && analyzing == old(analyzing)
      ensures mode == old(mode) && loading == old(loading) && error == old(error)
    {
      if Truthy(p.emotion) || Truthy(p.tone) || Truthy(p.length) || Truthy(p.situation) {
        form := form.(
          emotion := OrElse(p.emotion, form.emotion),
          tone := OrElse(p.tone, form.tone),
          length := OrElse(p.length, form.length),
          situation := OrElse(p.situation, form.situation),
          includeText := OrElse(p.mustInclude, form.includeText),
          avoidText := OrElse(p.mustAvoid, form.avoidText));
      }
    }

    /** `handleEmotionChange`: the emotion changes and its error, if any, is cleared. */
    method HandleEmotionChange(emotion: string)
      modifies this
      ensures form == old(form).(emotion := emotion) && errors == old(errors).(emotion := None)
      ensures analysis == old(analysis) && analyzing == old(analyzing)
      ensures mode == old(mode) && loading == old(loading) && error == old(error)
    {
      form := form.(emotion := emotion);
      if errors.emotion.Some? {
        errors := errors.(emotion := None);
      }
    }

    /** `handleSituationChange`. */
    method HandleSituationChange(situation: string)
      modifies this
      ensures form == old(form).(situation := situation) && errors == old(errors).(situation := None)
      ensures analysis == old(analysis) && analyzing == old(analyzing)
      ensures mode == old(mode) && loading == old(loading) && error == old(error)
    {
      form := form.(situation := situation);
      if errors.situation.Some? {
        errors := errors.(situation := None);
      }
    }

    /** `handleToneChange`. */
    method HandleToneChange(tone: string)
      modifies this
      ensures form == old(form).(tone := tone) && errors == old(errors).(tone := None)
      ensures analysis == old(analysis) && analyzing == old(analyzing)
      ensures mode == old(mode) && loading == old(loading) && error == old(error)
    {
      form := form.(tone := tone);
      if errors.tone.Some? {
        errors := errors.(tone := None);
      }
    }

    /** `handleLengthChange`. */
    method HandleLengthChange(length: string)
      modifies this
      ensures form == old(form).(length := length) && errors == old(errors).(length := None)
      ensures analysis == old(analysis) && analyzing == old(analyzing)
      ensures mode == old(mode) && loading == old(loading) && error == old(error)
    {
      form := form.(length := length);
      if errors.length.Some? {
        errors := errors.(length := None);
      }
    }

    /** `handleAvoidTextChange`: only the avoid text changes; errors stay as they are. */
    method HandleAvoidTextChange(avoidText: string)
      modifies this
      ensures form == old(form).(avoidText := avoidText) && errors == old(errors)
      ensures analysis == old(analysis) && analyzing == old(analyzing)
      ensures mode == old(mode) && loading == old(loading) && error == old(error)
    {
      form := form.(avoidText := avoidText);
    }

    /** `handleIncludeTextChange`. */
    method HandleIncludeTextChange(includeText: string)
      modifies this
      ensures form == old(form).(includeText := includeText) && errors == old(errors)
      ensures analysis == old(analysis) && analyzing == old(analyzing)
      ensures mode == old(mode) && loading == old(loading) && error == old(error)
    {
      form := form.(includeText := includeText);
    }

    /** `handleAnalysisComplete`: the analysis is kept, analysing stops, and all six form fields
        are replaced from it. */
    method HandleAnalysisComplete(a: AnalysisResult)
      modifies this
      ensures analysis == Some(a) && !analyzing && form == FormFromAnalysis(a)
      ensures errors == old(errors) && mode == old(mode) && loading == old(loading) && error == old(error)
    {
      analysis := Some(a);
      analyzing := false;
      form := FormFromAnalysis(a);
    }

    /** `handleAnalysisStart`. */
    method HandleAnalysisStart()
      modifies this
      ensures analyzing && error == None
      ensures form == old(form) && errors == old(errors) && analysis == old(analysis)
      ensures mode == old(mode) && loading == old(loading)
    {
      analyzing := true;
      error := None;
    }

    /** `handleAnalysisError`. */
    method HandleAnalysisError(message: string)
      modifies this
      ensures !analyzing && error == Some(message)
      ensures form == old(form) && errors == old(errors) && analysis == old(analysis)
      ensures mode == old(mode) && loading == old(loading)
    {
      error := Some(message);
      analyzing := false;
    }

    /** The first half of `handleSubmit`: clears the page's error, validates, and when the form
        passes stops a pending analysis by hand, starts loading and builds the letter request.
        The two checks the source makes after validation are left out: they never fire
        (`SubmitChecksRedundant`). */
    method BeginSubmit() returns (input: Option<LetterInput>)
      modifies this
      ensures errors == FormErrors(mode, form, analysis.Some?)
      ensures input.Some? <==> errors == NoErrors
      ensures input.Some? ==> input.value == LetterInputOf(form) && loading
      ensures input.None? ==> loading == old(loading)
      ensures analyzing == (old(analyzing) && !(input.Some? && mode == Manual))
      ensures error == None
      ensures form == old(form) && analysis == old(analysis) && mode == old(mode)
    {
      error := None;
      var ok := ValidateForm();
      if !ok {
        return None;
      }
      if mode == Manual && analyzing {
        analyzing := false;
      }
      loading := true;
      input := Some(LetterInputOf(form));
    }

    /** The `finally` of `handleSubmit`. */
    method EndSubmit()
      modifies this
      ensures !loading
      ensures form == old(form) && errors == old(errors) && analysis == old(analysis)
      ensures analyzing == old(analyzing) && mode == old(mode) && error == old(error)
    {
      loading := false;
    }
  }

  /** `handleSubmit`: when the form passes, the letter the fallback generator writes for the
      form's request. The modelled generator always yields a text, so the page's error stays
      cleared. */
  method Submit(page: CreateLetterForm, slot: ClientSlot, key: Option<string>,
                service: string -> ChatReply)
    returns (letter: Option<string>)
    modifies page, slot
    ensures page.errors == FormErrors(page.mode, page.form, page.analysis.Some?)
    ensures letter.Some? <==> page.errors == NoErrors
    ensures letter.Some? ==>
      slot.ready == (old(slot.ready) || UsableKey(key)) && !page.loading &&
      letter.value == FallbackLetter(slot.ready,
        service(GeneratePromptFromInput(LetterInputOf(page.form))), LetterInputOf(page.form))
    ensures letter.None? ==> slot.ready == old(slot.ready) && page.loading == old(page.loading)
    ensures page.analyzing == (old(page.analyzing) && !(letter.Some? && page.mode == Manual))
    ensures page.error == None
    ensures page.form == old(page.form) && page.analysis == old(page.analysis) && page.mode == old(page.mode)
  {
    var input := page.BeginSubmit();
    if input.None? {
      return None;
    }
    var generated := GenerateLetterWithFallback(slot, key, input.value, service);
    page.EndSubmit();
    letter := Some(generated);
  }
}
