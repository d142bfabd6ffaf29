/**
 * The letter store: the form data, the generated letter, a loading flag and an error message,
 * with the actions that replace them. Every action is a shallow merge into the state.
 */
module LetterStore {
  import opened Wrappers

  /** `LetterFormData`, with the five fields of the store's initial form data. */
  datatype StoreForm = StoreForm(
    emotion: string,
    situation: string,
    tone: string,
    length: string,
    additionalContext: string)

  /** `Partial<LetterFormData>`: `None` is a key the update leaves out. */
  datatype FormPatch = FormPatch(
    emotion: Option<string>,
    situation: Option<string>,
    tone: Option<string>,
    length: Option<string>,
    additionalContext: Option<string>)

  const EmptyPatch: FormPatch := FormPatch(None, None, None, None, None)

  /** `GeneratedLetter` is not defined in the types the store imports; the store only keeps
      one, so it stands in as a value holding some text. */
  datatype GeneratedLetter = GeneratedLetter(text: string)

  datatype StoreState = StoreState(
    formData: StoreForm,
    generatedLetter: Option<GeneratedLetter>,
    isLoading: bool,
    error: Option<string>)

  /** `initialFormData`: an apology, polite, of ordinary length, with nothing else filled in.
      The store keeps the Korean labels here, not the codes. */
  const InitialFormData: StoreForm := StoreForm("사과", "", "정중한", "보통", "")

  const InitialState: StoreState := StoreState(InitialFormData, None, false, None)

  // ---------------------------------------------------------------------------
  // The actions on values
  // ---------------------------------------------------------------------------

  /** `{ ...form, ...patch }`: every supplied field is overwritten and every other kept. */
  function Merge(form: StoreForm, patch: FormPatch): (r: StoreForm)
    ensures patch.emotion.Some? ==> r.emotion == patch.emotion.value
    ensures patch.emotion.None? ==> r.emotion == form.emotion
    ensures patch.situation.Some? ==> r.situation == patch.situation.value
    ensures patch.situation.None? ==> r.situation == form.situation
    ensures patch.tone.Some? ==> r.tone == patch.tone.value
    ensures patch.tone.None? ==> r.tone == form.tone
    ensures patch.length.Some? ==> r.length == patch.length.value
    ensures patch.length.None? ==> r.length == form.length
    ensures patch.additionalContext.Some? ==> r.additionalContext == patch.additionalContext.value
    ensures patch.additionalContext.None? ==> r.additionalContext == form.additionalContext
  {
    StoreForm(
      patch.emotion.GetOr(form.emotion), patch.situation.GetOr(form.situation),
      patch.tone.GetOr(form.tone), patch.length.GetOr(form.length),
      patch.additionalContext.GetOr(form.additionalContext))
  }

  /** `{ ...p, ...q }` on patches: the later patch wins where both supply a field, so merging
      the combined patch is merging the two in turn. */
  function Combine(p: FormPatch, q: FormPatch): (r: FormPatch)
    ensures forall form :: Merge(Merge(form, p), q) == Merge(form, r)
  {
    FormPatch(
      if q.emotion.Some? then q.emotion else p.emotion,
      if q.situation.Some? then q.situation else p.situation,
      if q.tone.Some? then q.tone else p.tone,
      if q.length.Some? then q.length else p.length,
      if q.additionalContext.Some? then q.additionalContext else p.additionalContext)
  }

  /** Merging nothing keeps the form; merging the same patch twice is merging it once. */
  lemma MergeLaws(form: StoreForm, p: FormPatch)
    ensures Merge(form, EmptyPatch) == form
    ensures Merge(Merge(form, p), p) == Merge(form, p)
  {
  }

  /** `updateFormData`: only the form data changes. */
  function MergedState(s: StoreState, patch: FormPatch): (r: StoreState)
    ensures r.formData == Merge(s.formData, patch)
    ensures r.generatedLetter == s.generatedLetter && r.isLoading == s.isLoading && r.error == s.error
  {
    s.(formData := Merge(s.formData, patch))
  }

  /** `setGeneratedLetter`: only the letter changes. */
  function WithLetter(s: StoreState, letter: GeneratedLetter): (r: StoreState)
    ensures r.generatedLetter == Some(letter)
    ensures r.formData == s.formData && r.isLoading == s.isLoading && r.error == s.error
  {
    s.(generatedLetter := Some(letter))
  }

  /** `setLoading`: only the flag changes. */
  function WithLoading(s: StoreState, loading: bool): (r: StoreState)
    ensures r.isLoading == loading
    ensures r.formData == s.formData && r.generatedLetter == s.generatedLetter && r.error == s.error
  {
    s.(isLoading := loading)
  }

  /** `setError`: only the error changes. */
  function WithError(s: StoreState, error: Option<string>): (r: StoreState)
    ensures r.error == error
    ensures r.formData == s.formData && r.generatedLetter == s.generatedLetter && r.isLoading == s.isLoading
  {
    s.(error := error)
  }

  /** `resetForm`: the initial form data, no letter and no error; the loading flag stays. */
  function ResetState(s: StoreState): (r: StoreState)
    ensures r == InitialState.(isLoading := s.isLoading)
  {
    StoreState(InitialFormData, None, s.isLoading, None)
  }

  /** Resetting twice is resetting once, resetting the initial state changes nothing, and a
      reset forgets every earlier update, letter and error. */
  lemma ResetLaws(s: StoreState, patch: FormPatch, letter: GeneratedLetter, error: Option<string>)
    ensures ResetState(ResetState(s)) == ResetState(s)
    ensures ResetState(InitialState) == InitialState
    ensures ResetState(MergedState(s, patch)) == ResetState(s)
    ensures ResetState(WithLetter(s, letter)) == ResetState(s)
    ensures ResetState(WithError(s, error)) == ResetState(s)
    ensures ResetState(WithLoading(s, true)) != ResetState(WithLoading(s, false))
  {
  }

  // ---------------------------------------------------------------------------
  // The store
  // ---------------------------------------------------------------------------

  class Store {
    var formData: StoreForm
    var generatedLetter: Option<GeneratedLetter>
    var isLoading: bool
    var error: Option<string>

    /** The store's state as a value. */
    function State(): StoreState
      reads this
    {
      StoreState(formData, generatedLetter, isLoading, error)
    }

    /** The store as created: the initial form data, no letter, not loading, no error. */
    constructor ()
      ensures State() == InitialState
    {
      formData := InitialFormData;
      generatedLetter := None;
      isLoading := false;
      error := None;
    }

    /** `updateFormData`. */
    method UpdateFormData(patch: FormPatch)
      modifies this
      ensures State() == MergedState(old(State()), patch)
    {
      formData := Merge(formData, patch);
    }

    /** `setGeneratedLetter`. */
    method SetGeneratedLetter(letter: GeneratedLetter)
      modifies this
      ensures State() == WithLetter(old(State()), letter)
    {
      generatedLetter := Some(letter);
    }

    /** `setLoading`. */
    method SetLoading(loading: bool)
      modifies this
      ensures State() == WithLoading(old(State()), loading)
    {
      isLoading := loading;
    }

    /** `setError`. */
    method SetError(e: Option<string>)
      modifies this
      ensures State() == WithError(old(State()), e)
    {
      error := e;
    }

    /** `resetForm`. */
    method ResetForm()
      modifies this
      ensures State() == ResetState(old(State()))
    {
      formData := InitialFormData;
      generatedLetter := None;
      error := None;
    }
  }
}
