# heartscribe letter core, modelled in Dafny

heartscribe writes Korean letters (an apology, a confession, a congratulation, thanks, comfort,
encouragement, a farewell on leaving a job) for its users. A user either fills in a form by hand
(emotion, tone, length, situation, a sentence to include, an expression to avoid) or describes the
letter in one sentence, which is analysed into the same fields. The form becomes a `LetterInput`.
The input becomes a prompt for a language model, or, when no usable model client exists or the model
fails, a letter built from a fixed template per emotion.

This project models that core:

- `LetterTypes` (`letter_types.dfy`): the emotion, tone and length codes, their Korean labels and
  the `LetterInput` record. The codes stay plain strings in `LetterInput`, as they are at run time
  after the form's casts, so the default branches of every switch are reachable and proved.
- `MapLength` (`map_length.dfy`): length codes to a character-count range and to a description.
- `GeneratePrompt` (`generate_prompt.dfy`): the seventeen-line prompt, its clauses and its examples.
- `ApiKey` (`api_key.dfy`): the key test, and the module-level client variable as a `ClientSlot`
  object whose `ready` flag is set on the first usable key and never cleared.
- `GenerationErrors` (`generation_errors.dfy`): what the completion call can return or throw, and
  the `catch` block that maps every failure to one of four user-facing errors.
- `GenerateLetter` (`generate_letter.dfy`): the seven templates, the short/long adjustment, the
  model-backed generator and the wrapper that falls back to the templates.
- `AnalyzeInput` (`analyze_input.dfy`): the keyword analysis, the two regular-expression captures
  modelled exactly, and the defaulting of the model's answer.
- `AnalysisReport` (`analysis_report.dfy`): the text that shows an analysis to the user.
- `CreateLetter` (`create_letter.dfy`): the letter page's state as a class, with validation, the
  change handlers, the restore from the address bar, and submission.
- `LetterStore` (`letter_store.dfy`): the shared store as a class whose actions are shallow merges.
- `TextOps` (`text_ops.dfy`) and `Wrappers` (`wrappers.dfy`): the JavaScript string operations the
  core relies on (`includes`, `indexOf`, `split`, `join`, `replace`, `trim`, `toLowerCase`), and
  `Option`/`Result`.

The model-backed calls become parameters. The environment's API key is an `Option<string>`
argument. The chat-completion service is a total function from the prompt to a reply value.

Three consequences of the code are worth stating outright:

- The sample request shown by the natural-language input box, "친구에게 사과 편지를 쓰고 싶어요.
  시험 망친 일 때문에 너무 미안해요. 너무 딱딱하진 않게 부탁해요." ("… please make it not too
  stiff"), is analysed as an apology with the tone `formal`: "not too stiff" (딱딱하진 않게)
  mentions the formal keyword 딱딱, which is tested before the friendly keyword 친구
  (`BoxSampleAnalysis`). Its first sentence alone comes out `friendly` (`FriendApologyAnalysis`).
- A short template letter keeps only its opening block and the signature placeholder, so the
  include sentence is dropped from it (`ShortExampleDropsInclude`).
- A code that is not an own key of the label table reaches the prompt builder unvalidated from the
  form or the address bar. Its label renders as `undefined` (`GeneratePrompt.EmotionLabelText`).

## Model

| member | source | states |
|---|---|---|
| LetterTypes.ParseEmotion | src/types/letter.ts:2-9 | the emotion union: a string parses exactly when it is the code of some emotion, and then to that emotion |
| LetterTypes.ParseTone | src/types/letter.ts:12-17 | the tone union: parses exactly the five tone codes |
| LetterTypes.ParseLength | src/types/letter.ts:20 | the length union: parses exactly `short`, `medium` and `long` |
| LetterTypes.CodesRoundTrip | src/types/letter.ts:2-20 | parsing the code of any emotion, tone or length gives that value back |
| LetterTypes.EnumerationSizes | src/types/letter.ts:2-20 | there are exactly 7 emotions, 5 tones and 3 lengths, listed completely and without repeats |
| LetterTypes.LabelMapsTotalAndInjective | src/types/letter.ts:33-57 | each label table covers its whole enumeration with non-empty labels, and no two members share a label |
| LetterTypes.EmotionLabelsTotalAndInjective | src/types/letter.ts:33-41 | `EMOTION_LABELS` is total, non-empty and injective |
| LetterTypes.ToneLabelsTotalAndInjective | src/types/letter.ts:44-50 | `TONE_LABELS` is total, non-empty and injective |
| LetterTypes.LengthLabelsTotalAndInjective | src/types/letter.ts:53-57 | `LENGTH_LABELS` is total, non-empty and injective |
| LetterTypes.TypedInput | src/types/letter.ts:23-30 | an input built from enumeration values is well typed, and its codes parse back to those values |
| MapLength.MapLengthToCharCount | src/utils/mapLength.ts:8-19 | the result is always one of the three ranges |
| MapLength.CharCountTable | src/utils/mapLength.ts:8-19 | each code gets its own range, the three ranges differ, and any other text gets the medium range |
| MapLength.MapLengthToDescription | src/utils/mapLength.ts:26-37 | the result is always one of the three descriptions |
| MapLength.DescriptionTable | src/utils/mapLength.ts:26-37 | each code gets its description, and any other text gets the medium one |
| GeneratePrompt.EmotionLabelText | src/lib/generatePrompt.ts:21 | a known emotion code renders as its label; any other text that is not an own key of the table renders as `undefined` |
| GeneratePrompt.ToneLabelText | src/lib/generatePrompt.ts:22 | a known tone code renders as its label; any other text that is not an own key of the table renders as `undefined` |
| GeneratePrompt.Clause | src/lib/generatePrompt.ts:26-33 | the include or avoid condition line; `ClauseCases`, `ClauseOfBlank` and `ClauseQuotes` state what it is |
| GeneratePrompt.ClauseOfBlank | src/lib/generatePrompt.ts:26-33 | a text that trims to empty gives the clause of no text |
| GeneratePrompt.ClauseQuotes | src/lib/generatePrompt.ts:26-33 | a non-empty text without surrounding whitespace is quoted as it is |
| GeneratePrompt.ClauseCases | src/lib/generatePrompt.ts:26-33 | a clause says `없음` exactly when its text is absent or trims to empty; otherwise it quotes the trimmed text |
| GeneratePrompt.ClauseIgnoresPadding | src/lib/generatePrompt.ts:26-33 | whitespace around the include or avoid text never changes its clause |
| GeneratePrompt.BlankClauses | src/lib/generatePrompt.ts:26-33 | an all-whitespace text gives the same clause as no text |
| GeneratePrompt.PromptBody | src/lib/generatePrompt.ts:40-47 | the constraint lines and the situation section are eight lines |
| GeneratePrompt.PromptLines | src/lib/generatePrompt.ts:36-52 | the prompt has seventeen lines |
| GeneratePrompt.GeneratePromptFromInput | src/lib/generatePrompt.ts:10-55 | the prompt holds the situation verbatim; `PromptLinesRecoverable` and `SituationSpliced` place it on its own line |
| GeneratePrompt.IntroLine1NewlineFree | src/lib/generatePrompt.ts:36 | the first instruction line holds no newline |
| GeneratePrompt.IntroLine2NewlineFree | src/lib/generatePrompt.ts:37 | the second instruction line holds no newline |
| GeneratePrompt.ClosingLine1NewlineFree | src/lib/generatePrompt.ts:49 | the first closing line holds no newline |
| GeneratePrompt.ClosingLine2NewlineFree | src/lib/generatePrompt.ts:50 | the second closing line holds no newline |
| GeneratePrompt.ClosingLine3NewlineFree | src/lib/generatePrompt.ts:52 | the last closing line holds no newline |
| GeneratePrompt.FixedLinesNewlineFree | src/lib/generatePrompt.ts:36-52 | none of the fixed lines holds a newline |
| GeneratePrompt.EmotionLabelNewlineFree | src/lib/generatePrompt.ts:21 | the emotion label text holds no newline |
| GeneratePrompt.ToneLabelNewlineFree | src/lib/generatePrompt.ts:22 | the tone label text holds no newline |
| GeneratePrompt.RangeNewlineFree | src/lib/generatePrompt.ts:23 | the length range holds no newline |
| GeneratePrompt.ClauseNewlineFree | src/lib/generatePrompt.ts:26-33 | a clause holds a newline only if its trimmed text does |
| GeneratePrompt.LabelLinesNewlineFree | src/lib/generatePrompt.ts:40-42 | the emotion, tone and length lines hold no newline |
| GeneratePrompt.BodyNewlineFree | src/lib/generatePrompt.ts:40-47 | the computed lines hold no newline when the situation and the trimmed texts hold none |
| GeneratePrompt.PromptLinePositions | src/lib/generatePrompt.ts:36-52 | the constraint header, labels, range, both clauses, the situation header and the situation sit at fixed line numbers |
| GeneratePrompt.PromptClosingFollowsSituation | src/lib/generatePrompt.ts:48-52 | the lines after the situation are exactly the fixed closing lines |
| GeneratePrompt.PromptHeadIgnoresSituation | src/lib/generatePrompt.ts:36-46 | the eleven lines before the situation are the same whatever the situation is |
| GeneratePrompt.PromptLinesRecoverable | src/lib/generatePrompt.ts:10-55 | with newline-free situation and texts, splitting the prompt at newlines gives back exactly its seventeen lines |
| GeneratePrompt.SituationSpliced | src/lib/generatePrompt.ts:45-47 | the situation appears verbatim on its own line, after a head that does not depend on it and before the fixed closing lines |
| GeneratePrompt.PromptDependsOnlyOnRenderedFields | src/lib/generatePrompt.ts:10-55 | two inputs with the same labels, range, clauses and situation give the same prompt |
| GeneratePrompt.PromptBlankAndPadding | src/lib/generatePrompt.ts:26-33 | a blank include or avoid text gives the prompt of an absent one, and padding around a text gives the prompt of the bare text |
| GeneratePrompt.ExampleInputsWellTyped | src/lib/generatePrompt.ts:60-82 | the three example inputs use enumeration codes, and the first renders its emotion as 사과 |
| GeneratePrompt.ApologyIncludeUnpadded | src/lib/generatePrompt.ts:66 | the first example's include sentence has no surrounding whitespace |
| GeneratePrompt.ExampleApologyClause | src/lib/generatePrompt.ts:61-69 | the first example's prompt quotes its include sentence unchanged |
| GeneratePrompt.ExampleConfessionClause | src/lib/generatePrompt.ts:70-75 | the second example, which has no include sentence, says `없음` |
| ApiKey.UsableKey | src/lib/generateLetter.ts:32-44 | the key test of `initializeOpenAI`, also used by the analysis; `PlaceholderKeysRejected` states which keys pass |
| ApiKey.PlaceholderKeysRejected | src/lib/generateLetter.ts:32-44 | a missing or empty key, or one holding `dummy` or `test`, is rejected; a non-empty key is accepted exactly when it holds neither word |
| ApiKey.ClientSlot.constructor | src/lib/generateLetter.ts:15 | the client variable starts empty |
| ApiKey.ClientSlot.EnsureInitialized | src/lib/generateLetter.ts:69-71 | after `if (!openai) openai = initializeOpenAI()` a client exists exactly when one already did or the key is usable |
| GenerationErrors.Rethrown | src/lib/generateLetter.ts:111-126 | an `Error` mentioning `API key` becomes the configuration error; failing that, `rate limit` becomes the rate error; failing both, `quota` becomes the quota error; everything else is generic |
| GenerationErrors.ErrorMessage | src/lib/generateLetter.ts:117-125 | the text of each rethrown error; `ErrorMessagesDistinct` proves the four differ |
| GenerationErrors.GenericWithoutKeyLetters | src/lib/generateLetter.ts:115-125 | a message without the letters k, r and q is always reported as the generic error |
| GenerationErrors.NoClientMessageLacksKeyLetters | src/lib/generateLetter.ts:74 | the missing-client message has no k, r or q |
| GenerationErrors.NoClientMessageLacksK | src/lib/generateLetter.ts:74 | the missing-client message has no k |
| GenerationErrors.NoClientMessageLacksR | src/lib/generateLetter.ts:74 | the missing-client message has no r |
| GenerationErrors.NoChoicesMessageLacksKeyLetters | src/lib/generateLetter.ts:101 | the no-choices message has no k, r or q |
| GenerationErrors.NoContentMessageLacksKeyLetters | src/lib/generateLetter.ts:106 | the no-content message has no k, r or q |
| GenerationErrors.ErrorMessagesDistinct | src/lib/generateLetter.ts:117-125 | the four rethrown errors carry four different messages |
| GenerationErrors.CapitalisedRateLimitIsGeneric | src/lib/generateLetter.ts:118 | the test is case-sensitive: `Rate limit exceeded` falls through to the generic error |
| GenerationErrors.QuotaTextRecognised | src/lib/generateLetter.ts:120 | a message with a lower-case `quota` is reported as the quota error |
| GenerationErrors.KeyTextRecognised | src/lib/generateLetter.ts:116 | a message naming the `API key` is reported as the configuration error |
| GenerationErrors.InternalFailuresAreGeneric | src/lib/generateLetter.ts:73-107 | the three errors the generator throws itself all surface as the generic error; in particular a missing client (whose message says `API 키`, not `API key`) is never reported as a configuration problem |
| GenerateLetter.Texts | src/lib/generateLetter.ts:138-222 | the template of each of the seven emotions, and every one of them is plain |
| GenerateLetter.Slot | src/lib/generateLetter.ts:145 | `mustInclude ? mustInclude : default`: a non-empty include text fills the slot as it is, whitespace included; an absent or empty one gives the default sentence |
| GenerateLetter.Blocks | src/lib/generateLetter.ts:138-222 | a template is at least five blocks: the opening, the situation, the blocks before the slot, the slot, the closing block and the `[이름]` placeholder |
| GenerateLetter.TemplateKey | src/lib/generateLetter.ts:225 | a known emotion code picks its template; any other text picks the gratitude template |
| GenerateLetter.ApologyBlock0Plain | src/lib/generateLetter.ts:143 | the apology template's middle block has no bracket |
| GenerateLetter.ApologyTextsPlain | src/lib/generateLetter.ts:139-149 | the apology template's fixed text is plain: a one-line opening, no bracket in any fixed block, and a closing block that does not end in a newline |
| GenerateLetter.ConfessionBlock0Plain | src/lib/generateLetter.ts:155 | the confession template's first middle block has no bracket |
| GenerateLetter.ConfessionBlock1Plain | src/lib/generateLetter.ts:157 | the confession template's second middle block has no bracket |
| GenerateLetter.ConfessionTextsPlain | src/lib/generateLetter.ts:151-163 | the confession template's fixed text is plain |
| GenerateLetter.ResignationBlock0Plain | src/lib/generateLetter.ts:215 | the resignation template's middle block has no bracket |
| GenerateLetter.ResignationTextsPlain | src/lib/generateLetter.ts:211-221 | the resignation template's fixed text is plain |
| GenerateLetter.CelebrationTextsPlain | src/lib/generateLetter.ts:165-173 | the celebration template's fixed text is plain |
| GenerateLetter.GratitudeBlock0Plain | src/lib/generateLetter.ts:179 | the gratitude template's middle block has no bracket |
| GenerateLetter.GratitudeTextsPlain | src/lib/generateLetter.ts:175-185 | the gratitude template's fixed text is plain |
| GenerateLetter.ComfortBlock0Plain | src/lib/generateLetter.ts:191 | the comfort template's middle block has no bracket |
| GenerateLetter.ComfortTextsPlain | src/lib/generateLetter.ts:187-197 | the comfort template's fixed text is plain |
| GenerateLetter.EncouragementBlock0Plain | src/lib/generateLetter.ts:203 | the encouragement template's middle block has no bracket |
| GenerateLetter.EncouragementTextsPlain | src/lib/generateLetter.ts:199-209 | the encouragement template's fixed text is plain |
| GenerateLetter.NoBracketNoPlaceholder | src/lib/generateLetter.ts:237 | a block without a bracket cannot hold the placeholder |
| GenerateLetter.TemplateTailSplitEnds | src/lib/generateLetter.ts:231 | everything after the opening splits at blank lines into at least two pieces, the last being the placeholder |
| GenerateLetter.TemplateSplitEnds | src/lib/generateLetter.ts:231-234 | whatever the situation and include text hold, a template splits at blank lines into more than two pieces, the first the opening and the last the placeholder, so a short letter is always just those two |
| GenerateLetter.Template | src/lib/generateLetter.ts:138-225 | the template letter holds the situation verbatim and ends with the `[이름]` placeholder |
| GenerateLetter.DummyLetter | src/lib/generateLetter.ts:225-240 | whatever the length, the template letter ends with the `[이름]` placeholder; `GenerateDummyLetter` and the lemmas below state each branch |
| GenerateLetter.DummyLetterIgnoresUnusedFields | src/lib/generateLetter.ts:134-240 | the template letter never depends on the tone or the avoid text, and a short one depends on neither the situation nor the include text |
| GenerateLetter.BlankIncludeKeptInLetter | src/lib/generateLetter.ts:145 | an all-whitespace include text is no text for the prompt, yet a medium template letter holds it verbatim |
| GenerateLetter.GenerateDummyLetter | src/lib/generateLetter.ts:134-241 | the template letter: a short one is the opening and the placeholder, a long one has the extra block in place of the first placeholder, any other length gets the template unchanged |
| GenerateLetter.PlaceholderOnlyAtEnd | src/lib/generateLetter.ts:138-222 | when the situation and include text do not hold `[이름]`, the closing placeholder is the template's only one |
| GenerateLetter.LongLetterReplacesClosingPlaceholder | src/lib/generateLetter.ts:235-238 | a long letter is the medium letter with its closing placeholder, and only that one, replaced by the extra block and a new placeholder |
| GenerateLetter.MediumLetterHoldsSituationAndSlot | src/lib/generateLetter.ts:225-240 | a letter of any length other than short or long is the template itself and holds the situation and the include slot's text verbatim |
| GenerateLetter.ShortExampleDropsInclude | src/lib/generateLetter.ts:229-234 | the short celebration example comes out as `축하합니다! 🎉`, a blank line and `[이름]`, without its include sentence |
| GenerateLetter.LetterOutcome | src/lib/generateLetter.ts:66-127 | generation succeeds exactly when a client exists and the first choice has non-empty content, and then yields that content trimmed; a rejected call fails with the `Rethrown` classification of what was thrown, and only a thrown `Error` can give a specific error |
| GenerateLetter.GenerateLetter | src/lib/generateLetter.ts:66-127 | the method initialises the client slot, asks the service only when a client exists, and returns `LetterOutcome` of the reply |
| GenerateLetter.FallbackLetter | src/lib/generateLetter.ts:248-267 | the fallback letter is the trimmed first content when a client exists and the first choice has non-empty content, and the template letter in every other case: no client, a rejected call, no choices or empty content |
| GenerateLetter.FallbackCases | src/lib/generateLetter.ts:248-267 | without a client the fallback letter is the same whatever the service replies |
| GenerateLetter.GenerateLetterWithFallback | src/lib/generateLetter.ts:248-267 | the method's letter is the generated one when a client exists and generation succeeds, and the template letter otherwise |
| AnalyzeInput.Classify | src/lib/analyzeInput.ts:140-175 | a keyword chain's value is the value of the first group the text mentions, or the default when it mentions none |
| AnalyzeInput.LazyEnd | src/lib/analyzeInput.ts:182 | the lazy scan before the look-ahead ends at the first stop character (`.`, 요, 다 or 고), and fails when a line terminator comes first |
| AnalyzeInput.MatchFrom | src/lib/analyzeInput.ts:182 | a match at a position ends at the lazy stop after some alternative that occurs there, and there is none when no occurring alternative reaches a stop |
| AnalyzeInput.SearchFrom | src/lib/analyzeInput.ts:182 | the search returns the leftmost start at which a match exists |
| AnalyzeInput.RegexMatch | src/lib/analyzeInput.ts:182-192 | a match is a piece of the text that starts with a keyword, runs up to a stop and holds no stop or line break after the keyword |
| AnalyzeInput.CaptureShape | src/lib/analyzeInput.ts:182 | a match ends right before a stop character, occurs in the text, and implies the text mentions a keyword |
| AnalyzeInput.RegexFindsReachableStop | src/lib/analyzeInput.ts:182 | the search is complete: a keyword followed by a reachable stop is always matched, at that position or earlier |
| AnalyzeInput.BasicAnalysis | src/lib/analyzeInput.ts:136-203 | the basic analysis keeps the text as typed as its situation and always yields valid codes |
| AnalyzeInput.ClassifyCons | src/lib/analyzeInput.ts:140-175 | a keyword chain tests its first group first |
| AnalyzeInput.MentionsTwo | src/lib/analyzeInput.ts:147 | mentioning one of two keywords is the disjunction of the two `includes` tests |
| AnalyzeInput.MentionsThree | src/lib/analyzeInput.ts:141 | mentioning one of three keywords is the disjunction of the three `includes` tests |
| AnalyzeInput.EmotionChain | src/lib/analyzeInput.ts:140-155 | the emotion groups unroll into the source's seven-way chain |
| AnalyzeInput.ToneChain | src/lib/analyzeInput.ts:158-167 | the tone groups unroll into the source's four-way chain |
| AnalyzeInput.LengthChain | src/lib/analyzeInput.ts:170-175 | the length groups unroll into the source's two-way chain |
| AnalyzeInput.EmotionTests | src/lib/analyzeInput.ts:140-155 | the emotion is decided by the source's `includes` tests, in order, with gratitude as the default |
| AnalyzeInput.ToneTests | src/lib/analyzeInput.ts:158-167 | the tone is decided by the source's `includes` tests, in order, with polite as the default |
| AnalyzeInput.LengthTests | src/lib/analyzeInput.ts:170-175 | the length is decided by the source's `includes` tests, in order, with medium as the default |
| AnalyzeInput.CaptureTests | src/lib/analyzeInput.ts:181-193 | a capture exists only when one of its keywords occurs, so the guards before the two matches change nothing |
| AnalyzeInput.BasicFields | src/lib/analyzeInput.ts:136-203 | every field of the basic analysis is the chain of tests that decides it, on the lower-cased text |
| AnalyzeInput.AnalyzeWithBasicLogic | src/lib/analyzeInput.ts:136-203 | the method's three if-chains and two guarded captures compute exactly the basic analysis |
| AnalyzeInput.CaselessMentions | src/lib/analyzeInput.ts:137 | lower-casing the text does not change whether it mentions a keyword without ASCII letters |
| AnalyzeInput.EmotionPriority | src/lib/analyzeInput.ts:140-155 | any mention of 사과, 미안 or 죄송 makes an apology; without them 마음 makes a confession, whatever else the text says |
| AnalyzeInput.TonePriority | src/lib/analyzeInput.ts:158-167 | on the text as typed, formal, friendly, emotional and concise keywords are tested in that order, else polite |
| AnalyzeInput.LengthPriority | src/lib/analyzeInput.ts:170-175 | on the text as typed, short keywords win over long ones, else medium |
| AnalyzeInput.CapturedPhrases | src/lib/analyzeInput.ts:177-193 | an include or avoid text is found only when the text mentions one of its keywords, and is a keyword-led piece of the lower-cased text |
| AnalyzeInput.FriendApologyWithin | src/components/NaturalLanguageInput.tsx:85 | the first sentence of the sample is written with the characters of its alphabet |
| AnalyzeInput.BoxSampleWithin | src/components/NaturalLanguageInput.tsx:85 | the whole sample is written with the characters of its alphabet |
| AnalyzeInput.NoLengthKeyword | src/lib/analyzeInput.ts:170-175 | a text drawn from the sample's characters mentions no short-length or long-length keyword |
| AnalyzeInput.NoCaptureKeyword | src/lib/analyzeInput.ts:180-192 | a text drawn from the sample's characters mentions no include or avoid keyword |
| AnalyzeInput.NoFormalKeyword | src/lib/analyzeInput.ts:159 | a text drawn from the first sentence's characters mentions no formal-tone keyword |
| AnalyzeInput.FriendApologyAnalysis | src/lib/analyzeInput.ts:136-203 | the first sentence of the sample alone is an apology in a friendly tone, of medium length, with nothing to include or avoid |
| AnalyzeInput.BoxSampleAnalysis | src/lib/analyzeInput.ts:136-203 | the whole sample of src/components/NaturalLanguageInput.tsx:85 is an apology in a formal tone, of medium length, with nothing to include or avoid |
| AnalyzeInput.OrElse | src/lib/analyzeInput.ts:109-112 | `v or fallback` is the value when it is truthy and the fallback otherwise |
| AnalyzeInput.Truthy | src/lib/analyzeInput.ts:109-112 | JavaScript truthiness of an optional text: present and non-empty; `OrElse` uses it |
| AnalyzeInput.FromAnswer | src/lib/analyzeInput.ts:108-115 | truthy answer fields are kept, falsy codes become gratitude, polite and medium, a falsy situation becomes the text as typed, and the include and avoid texts pass through |
| AnalyzeInput.AnswerCodes | src/lib/analyzeInput.ts:74-115 | a defaulted code is valid exactly when the model gave none or gave a valid one; the Korean emotion names the model is told to use are not codes |
| AnalyzeInput.UserInputAnalysis | src/lib/analyzeInput.ts:49-129 | the analysis always has non-empty emotion, tone and length codes, whichever path produced it |
| AnalyzeInput.UserInputAnalysisCases | src/lib/analyzeInput.ts:49-129 | without a client or a usable answer the result is the basic analysis; an empty answer gives the defaults and the text as typed |
| AnalyzeInput.AnalyzeUserInput | src/lib/analyzeInput.ts:49-129 | the method initialises its own client slot, asks the model only when a client exists, and returns the defaulted answer or the basic analysis |
| AnalysisReport.Shown | src/lib/analyzeInput.ts:236-238 | `labels[code] or code`: a non-empty label when there is one, and the code itself when the code is not a key |
| AnalysisReport.ReportEmotionLabelsAgree | src/lib/analyzeInput.ts:211-219 | the report's emotion table holds exactly the emotion codes, each with the label of `EMOTION_LABELS` |
| AnalysisReport.ReportEmotionKeysAreCodes | src/lib/analyzeInput.ts:211-219 | every key of the report's emotion table is an emotion code |
| AnalysisReport.ReportToneLabelsAgree | src/lib/analyzeInput.ts:221-227 | the report's tone table holds exactly the tone codes, each with the label of `TONE_LABELS` |
| AnalysisReport.ReportLengthLabelsAgree | src/lib/analyzeInput.ts:229-233 | the report's length table holds exactly the length codes, each with the label of `LENGTH_LABELS` |
| AnalysisReport.ShownLabelOrCode | src/lib/analyzeInput.ts:236-238 | a known code is shown by its shared label; any other text is shown as it is |
| AnalysisReport.Terminated | src/lib/analyzeInput.ts:235-247 | lines joined with a line break after each one end in a line break |
| AnalysisReport.ReportLines | src/lib/analyzeInput.ts:235-247 | the four fixed lines come first; the include line is there exactly when the include text is truthy, and the avoid line, last, exactly when the avoid text is |
| AnalysisReport.Report | src/lib/analyzeInput.ts:235-249 | the report starts with the header, continues past it, and ends in a line break |
| AnalysisReport.TerminatedSnoc | src/lib/analyzeInput.ts:236-246 | appending a line appends it and its line break |
| AnalysisReport.BuiltSnoc | src/lib/analyzeInput.ts:236-246 | each `result +=` step keeps the result equal to the header and the lines so far |
| AnalysisReport.FormatAnalysisResult | src/lib/analyzeInput.ts:210-250 | the method's text is the header followed by the report's lines, each with its line break, and ends in a line break |
| CreateLetter.FormErrors | src/pages/CreateLetter.tsx:83-111 | emotion, tone and length errors arise only by hand, each with its own message; the situation error is the missing-situation message, or the pending-analysis one from natural language without an analysis |
| CreateLetter.FormErrorsCases | src/pages/CreateLetter.tsx:83-111 | by hand each of the four fields is rejected exactly when it trims to empty; from natural language only the situation is checked, and a missing analysis replaces its message |
| CreateLetter.IsFormValid | src/pages/CreateLetter.tsx:246-248 | the submit button's condition; `ValidationImpliesFormValid` and `BlankFieldsEnableButExpectErrors` relate it to validation |
| CreateLetter.ValidationImpliesFormValid | src/pages/CreateLetter.tsx:246-248 | a form that passes validation enables the submit button; from natural language the two agree exactly |
| CreateLetter.BlankFieldsEnableButExpectErrors | src/pages/CreateLetter.tsx:246-248 | by hand, fields holding one space enable the button, yet validation rejects all four |
| CreateLetter.SubmitChecksRedundant | src/pages/CreateLetter.tsx:187-197 | after a successful validation the two further checks in `handleSubmit` cannot fire |
| CreateLetter.Restored | src/pages/CreateLetter.tsx:60-69 | when any of emotion, tone, length or situation is given, each of the four fields takes its truthy parameter and keeps its old value otherwise; when none is given nothing changes |
| CreateLetter.RestoreIdempotent | src/pages/CreateLetter.tsx:60-69 | restoring twice from the same address is restoring once |
| CreateLetter.FormFromAnalysis | src/pages/CreateLetter.tsx:158-165 | the form takes the analysis' fields, with an absent include or avoid text becoming empty |
| CreateLetter.LetterInputOf | src/pages/CreateLetter.tsx:208-215 | the letter request copies the form, with empty include and avoid texts becoming absent |
| CreateLetter.AnalysisToLetterInput | src/pages/CreateLetter.tsx:155-215 | an analysis carried through the form into a request keeps its codes and situation, and its include and avoid texts exactly when they are truthy |
| CreateLetter.BasicAnalysisGivesTypedInput | src/pages/CreateLetter.tsx:155-215 | a basic analysis always leads to a well-typed letter request |
| CreateLetter.TrimsToEmpty | src/pages/CreateLetter.tsx:87 | `!s.trim()` holds exactly when the text is all whitespace |
| CreateLetter.CreateLetterForm.constructor | src/pages/CreateLetter.tsx:34-48 | the page starts with an empty form, no errors, no analysis, nothing loading, by hand |
| CreateLetter.CreateLetterForm.ValidateForm | src/pages/CreateLetter.tsx:83-111 | records exactly the errors `FormErrors` gives and reports whether there are none; nothing else changes |
| CreateLetter.CreateLetterForm.SetInputMode | src/pages/CreateLetter.tsx:278-289 | the mode buttons change only the input mode |
| CreateLetter.CreateLetterForm.RestoreFromUrl | src/pages/CreateLetter.tsx:51-80 | the form becomes `Restored(old form, parameters)` and nothing else changes |
| CreateLetter.CreateLetterForm.HandleEmotionChange | src/pages/CreateLetter.tsx:114-120 | the emotion is replaced and its error cleared; nothing else changes |
| CreateLetter.CreateLetterForm.HandleSituationChange | src/pages/CreateLetter.tsx:122-128 | the situation is replaced and its error cleared; nothing else changes |
| CreateLetter.CreateLetterForm.HandleToneChange | src/pages/CreateLetter.tsx:130-136 | the tone is replaced and its error cleared; nothing else changes |
| CreateLetter.CreateLetterForm.HandleLengthChange | src/pages/CreateLetter.tsx:138-144 | the length is replaced and its error cleared; nothing else changes |
| CreateLetter.CreateLetterForm.HandleAvoidTextChange | src/pages/CreateLetter.tsx:146-148 | only the avoid text changes |
| CreateLetter.CreateLetterForm.HandleIncludeTextChange | src/pages/CreateLetter.tsx:150-152 | only the include text changes |
| CreateLetter.CreateLetterForm.HandleAnalysisComplete | src/pages/CreateLetter.tsx:155-166 | the analysis is kept, analysing stops, and the whole form is replaced from it |
| CreateLetter.CreateLetterForm.HandleAnalysisStart | src/pages/CreateLetter.tsx:168-171 | analysing starts and the page's error is cleared |
| CreateLetter.CreateLetterForm.HandleAnalysisError | src/pages/CreateLetter.tsx:173-176 | analysing stops and the page shows the message |
| CreateLetter.CreateLetterForm.BeginSubmit | src/pages/CreateLetter.tsx:178-215 | clears the error and validates; a passing form stops a pending analysis by hand, starts loading and yields its letter request, a failing one yields none and leaves loading alone |
| CreateLetter.CreateLetterForm.EndSubmit | src/pages/CreateLetter.tsx:241-243 | loading stops and nothing else changes |
| CreateLetter.Submit | src/pages/CreateLetter.tsx:178-244 | a passing form gets the fallback generator's letter for its request, loading stops and the error stays cleared; a failing form leaves the client slot and loading alone; a pending analysis stays pending only when the form fails or the mode is natural language |
| LetterStore.Merge | src/store/letterStore.ts:32-35 | `{ ...form, ...patch }`: every supplied field is overwritten and every other kept |
| LetterStore.Combine | src/store/letterStore.ts:32-35 | two successive `updateFormData` merges are one merge of the combined patch, for every form |
| LetterStore.MergeLaws | src/store/letterStore.ts:32-35 | merging nothing keeps the form, and merging a patch twice is merging it once |
| LetterStore.MergedState | src/store/letterStore.ts:32-35 | `updateFormData` changes only the form data |
| LetterStore.WithLetter | src/store/letterStore.ts:37-38 | `setGeneratedLetter` changes only the letter |
| LetterStore.WithLoading | src/store/letterStore.ts:40-41 | `setLoading` changes only the flag |
| LetterStore.WithError | src/store/letterStore.ts:43-44 | `setError` changes only the error |
| LetterStore.ResetState | src/store/letterStore.ts:46-51 | `resetForm` gives the initial state, except that the loading flag is kept |
| LetterStore.ResetLaws | src/store/letterStore.ts:46-51 | resetting twice is resetting once, the initial state is already reset, and a reset forgets every earlier update, letter and error but not the loading flag |
| LetterStore.Store.constructor | src/store/letterStore.ts:26-30 | the store starts with the initial form data, no letter, not loading and no error |
| LetterStore.Store.UpdateFormData | src/store/letterStore.ts:32-35 | the new state is `MergedState(old state, patch)` |
| LetterStore.Store.SetGeneratedLetter | src/store/letterStore.ts:37-38 | the new state is `WithLetter(old state, letter)` |
| LetterStore.Store.SetLoading | src/store/letterStore.ts:40-41 | the new state is `WithLoading(old state, flag)` |
| LetterStore.Store.SetError | src/store/letterStore.ts:43-44 | the new state is `WithError(old state, error)` |
| LetterStore.Store.ResetForm | src/store/letterStore.ts:46-51 | the new state is `ResetState(old state)` |
| TextOps.Contains | src/lib/generateLetter.ts:41 | `includes`: the pattern occurs at some position; `IndexOf` finds the first one |
| TextOps.IndexOf | src/lib/generateLetter.ts:237 | `indexOf`: found exactly when the text contains the pattern, at its first occurrence |
| TextOps.Split | src/lib/generateLetter.ts:231 | `split` with a string separator gives at least one piece; `SplitJoin` and `JoinSplit` relate it to `join` |
| TextOps.Join | src/lib/generateLetter.ts:138-233 | pieces glued with a separator; `JoinSplit` and `SplitJoin` state that it is undone by `split` |
| TextOps.SplitJoin | src/lib/generateLetter.ts:231 | `split` undoes `join` when no part holds the separator's first character |
| TextOps.JoinSplit | src/lib/generateLetter.ts:231 | `join` undoes `split` |
| TextOps.ReplaceTrailing | src/lib/generateLetter.ts:237 | `replace` with a string pattern changes only the first occurrence; when that is at the end it replaces the end |
| TextOps.ReplaceFirst | src/lib/generateLetter.ts:237 | `replace` with a string pattern; `ReplaceTrailing` and `ReplaceFirstKeepsSuffix` state its effect |
| TextOps.ReplaceFirstKeepsSuffix | src/lib/generateLetter.ts:237 | replacing the first `[이름]` of a text ending in `[이름]` by a text ending in `[이름]` leaves a text ending in `[이름]` |
| TextOps.Trim | src/lib/generateLetter.ts:109 | `trim()`: both trims in turn; `TrimStart`, `TrimEnd`, `TrimEmptyIffAllWhitespace`, `TrimPadded` and `TrimIdempotent` state what it removes |
| TextOps.TrimStart | src/lib/generateLetter.ts:109 | the start trim removes a whitespace prefix and stops at a non-whitespace character |
| TextOps.TrimEnd | src/lib/generateLetter.ts:109 | the end trim removes a whitespace suffix and stops at a non-whitespace character |
| TextOps.TrimEmptyIffAllWhitespace | src/pages/CreateLetter.tsx:87 | `trim()` is empty exactly when the text is all whitespace |
| TextOps.TrimPadded | src/lib/generatePrompt.ts:26-33 | trimming ignores any whitespace added around a text |
| TextOps.TrimIdempotent | src/lib/generatePrompt.ts:26-28 | trimming twice is trimming once |
| TextOps.ToLowerAscii | src/lib/analyzeInput.ts:137 | lower-casing keeps the length and maps each character on its own |
| TextOps.LowerKeepsKeyword | src/lib/analyzeInput.ts:137 | lower-casing does not change whether the text holds a keyword without ASCII letters |

## Left out

- Network and environment: the OpenAI client, the chat-completion requests and their parameters, `dotenv`, `import.meta.env` and `process.env`. The key is an argument and each service is a total function argument.
- The browser/Node.js branch in `initializeOpenAI` is left out. It only decides where the key is read from. The `try`/`catch` around client construction is left out too, because construction cannot fail in the model.
- Console logging, the `testPromptGeneration` printer, React rendering, `isEditMode`, and navigation to the result page, including the prompt and form data carried in its state.
- AnalyzeInput.AnalyzeUserInput: the ten-second timeout, the analysis prompt's text, the `/\{.*\}/` extraction and `JSON.parse` are not modelled. Every path that gives no usable object is one `Unanswered` reply. This includes a reply with no choices, which throws a `TypeError` in the source.
- AnalyzeInput.FromAnswer: JSON values that are not strings are left out. Fields are modelled as present strings or missing.
- TextOps.ToLowerAscii: only A–Z are lower-cased. This is exact for the Hangul keywords the analysis looks for (`LowerKeepsKeyword`), not for `toLowerCase` on other scripts.
- GeneratePrompt.EmotionLabelText: inherited object keys are not modelled. In the source, `constructor` or `toString` as an emotion code renders a function's source text, and `__proto__` renders `[object Object]`. Such codes can arrive from the address bar, which the page restores unvalidated. The model renders every non-code as `undefined`.
- GeneratePrompt.ToneLabelText: the same applies to the tone label.
- AnalysisReport.Shown: inherited object keys such as `toString` are not modelled. A lookup of such a code in the source finds a function rather than the code.
- GenerateLetter.TemplateKey: the same applies. A code such as `constructor`, `toString` or `__proto__` indexes an inherited member of the template object in the source, which is not a string. With the length `short` the `split` call then throws a `TypeError`, with `long` the `replace` call does, and with any other length the generator returns that member instead of a text. The model picks the gratitude template for every non-code.
- CreateLetter.CreateLetterForm.BeginSubmit: the two checks after validation are not written in the method. `SubmitChecksRedundant` proves they never fire.
- CreateLetter.Submit: the `catch` branch is not written. The fallback generator cannot throw for an emotion that is not an inherited key of the template object, so for those the page's error stays cleared. For an inherited key such as `toString`, restored from the address bar, with the length `short` or `long`, the template generator throws in the fallback's `try` and again in its `catch`, and the page shows the `TypeError`'s message; the model does not capture this.
- CreateLetter.Submit: submission is one atomic step. In the source, other handlers (an analysis finishing, a field edit) can run while `generateLetterWithFallback` is awaited, so the form and the flags it keeps unchanged hold only without such interleaving.
- LetterStore: `GeneratedLetter` is an opaque value holding text. Its type is not part of the store's file. A patch key explicitly set to `undefined` is not modelled; it overwrites a field with `undefined` in the source.
- Strings are sequences of Unicode scalar values, while JavaScript strings are sequences of UTF-16 code units, in which lone surrogates can occur. Every modelled operation (`includes`, `indexOf`, `split`, `replace`, `trim`, the lazy regular expression) agrees with the source on well-formed text; text with lone surrogates is not modelled.
- The components around the page (selectors, the natural-language input box, the result page) are not part of this model.
