/**
 * The errors of the model-backed generator: what the completion call can give back, the
 * messages the generator throws itself, and the `catch` block that turns any of them into
 * one of four user-facing errors.
 */
module GenerationErrors {
  import opened Wrappers
  import opened TextOps

  /** What a failed step throws: an `Error` with its message, or any other value. */
  datatype Thrown = ErrorValue(message: string) | OtherValue

  /** What the chat-completion call gives back: the message content of each returned choice
      (`None` for a `null` content; a missing choice list behaves as an empty one), or the
      value the call threw. */
  datatype ChatReply = Completion(contents: seq<Option<string>>) | Rejected(thrown: Thrown)

  /** The four errors `generateLetter` lets its callers see. */
  datatype GenerationError = ApiKeyProblem | RateLimited | QuotaExceeded | GenerationFailed

  // Each message below is the literal of src/lib/generateLetter.ts (lines 74, 101, 106
  // and 117-125) cut into short pieces, mostly at its spaces: the proofs about single
  // characters of the messages are far cheaper on short pieces. Joined, the pieces give
  // the literal back.

  /** The message each rethrown error carries. */
  function ErrorMessage(e: GenerationError): string {
    match e
    case ApiKeyProblem =>
      "API 설정이 " + "필요합니다. " + "환경변수 " + "VITE_OPE" + "NAI_API_KEY를 " + "확인해주세요."
    case RateLimited => "API 호출 " + "한도를 " + "초과했습니다. " + "잠시 후 다시 " + "시도해주세요."
    case QuotaExceeded => "API 사용량 " + "한도를 " + "초과했습니다. " + "잠시 후 다시 " + "시도해주세요."
    case GenerationFailed => "편지 생성 중 " + "오류가 " + "발생했습니다. " + "잠시 후 다시 " + "시도해주세요."
  }

  /** The messages of the errors `generateLetter` throws itself, inside its `try`. */
  const NoClientMessage := "OpenAI " + "인스턴스 " + "초기화에 " + "실패했습니다. " + "API 키를 " + "확인해주세요."
  const NoChoicesMessage := "편지 생성에 " + "실패했습니다."
  const NoContentMessage := "편지 내용이 " + "생성되지 " + "않았습니다."

  /** The `catch` block: an `Error` whose message mentions `API key`, `rate limit` or `quota`
      (tested in that order, case-sensitively) becomes the matching error; everything else
      becomes the generic one. */
  function Rethrown(t: Thrown): (e: GenerationError)
    ensures e == ApiKeyProblem <==> t.ErrorValue? && Contains(t.message, "API key")
    ensures e == RateLimited <==>
      t.ErrorValue? && !Contains(t.message, "API key") && Contains(t.message, "rate limit")
    ensures e == QuotaExceeded <==>
      t.ErrorValue? && !Contains(t.message, "API key") && !Contains(t.message, "rate limit") &&
      Contains(t.message, "quota")
  {
    match t
    case OtherValue => GenerationFailed
    case ErrorValue(m) =>
      if Contains(m, "API key") then ApiKeyProblem
      else if Contains(m, "rate limit") then RateLimited
      else if Contains(m, "quota") then QuotaExceeded
      else GenerationFailed
  }

  /** A message without the letters `k`, `r` and `q` matches none of the three key phrases. */
  lemma GenericWithoutKeyLetters(m: string)
    requires 'k' !in m && 'r' !in m && 'q' !in m
    ensures Rethrown(ErrorValue(m)) == GenerationFailed
  {
    AbsentCharNotContained(m, "API key", 4);
    AbsentCharNotContained(m, "rate limit", 0);
    AbsentCharNotContained(m, "quota", 0);
  }

  lemma NoClientMessageLacksKeyLetters()
    ensures 'k' !in NoClientMessage && 'r' !in NoClientMessage && 'q' !in NoClientMessage
  {
    NoClientMessageLacksK();
    NoClientMessageLacksR();
  }

  lemma NoClientMessageLacksK()
    ensures 'k' !in NoClientMessage
  {
  }

  lemma NoClientMessageLacksR()
    ensures 'r' !in NoClientMessage
  {
  }

  lemma NoChoicesMessageLacksKeyLetters()
    ensures 'k' !in NoChoicesMessage && 'r' !in NoChoicesMessage && 'q' !in NoChoicesMessage
  {
  }

  lemma NoContentMessageLacksKeyLetters()
    ensures 'k' !in NoContentMessage && 'r' !in NoContentMessage && 'q' !in NoContentMessage
  {
  }

  /** The four errors carry four different messages. */
  lemma ErrorMessagesDistinct()
    ensures forall a: GenerationError, b: GenerationError :: ErrorMessage(a) == ErrorMessage(b) ==> a == b
  {
    assert ErrorMessage(ApiKeyProblem)[4] == '설';
    assert ErrorMessage(RateLimited)[4] == '호';
    assert ErrorMessage(QuotaExceeded)[4] == '사';
    assert ErrorMessage(GenerationFailed)[0] == '편';
  }

  const ServiceRateLimitText := "Rate " + "limit " + "exceeded"
  const ServiceQuotaText := "You " + "exceeded " + "your " + "current " + "quota"
  const ServiceKeyText := "Incorrec" + "t API " + "key " + "provided"

  /** The key test is case-sensitive: the rate-limit text as the service capitalises it falls
      through to the generic error. */
  lemma CapitalisedRateLimitIsGeneric()
    ensures Rethrown(ErrorValue(ServiceRateLimitText)) == GenerationFailed
  {
    assert 'k' !in ServiceRateLimitText && 'r' !in ServiceRateLimitText && 'q' !in ServiceRateLimitText;
    GenericWithoutKeyLetters(ServiceRateLimitText);
  }

  /** A lower-case `quota` in the message is recognised. */
  lemma QuotaTextRecognised()
    ensures Rethrown(ErrorValue(ServiceQuotaText)) == QuotaExceeded
  {
    var q := ServiceQuotaText;
    assert 'k' !in q && 'l' !in q;
    AbsentCharNotContained(q, "API key", 4);
    AbsentCharNotContained(q, "rate limit", 5);
    assert q[26..31] == "quota";
    assert OccursAt(q, "quota", 26);
  }

  /** A message naming the `API key` is reported as a configuration problem. */
  lemma KeyTextRecognised()
    ensures Rethrown(ErrorValue(ServiceKeyText)) == ApiKeyProblem
  {
    var k := ServiceKeyText;
    assert k[10..17] == "API key";
    assert OccursAt(k, "API key", 10);
  }

  /** None of the messages `generateLetter` throws itself mentions a key, a rate limit or a
      quota, so each of them surfaces as the generic error; in particular a missing client is
      not reported as a configuration problem. */
  lemma InternalFailuresAreGeneric()
    ensures Rethrown(ErrorValue(NoClientMessage)) == GenerationFailed
    ensures Rethrown(ErrorValue(NoChoicesMessage)) == GenerationFailed
    ensures Rethrown(ErrorValue(NoContentMessage)) == GenerationFailed
  {
    NoClientMessageLacksKeyLetters();
    NoChoicesMessageLacksKeyLetters();
    NoContentMessageLacksKeyLetters();
    GenericWithoutKeyLetters(NoClientMessage);
    GenericWithoutKeyLetters(NoChoicesMessage);
    GenericWithoutKeyLetters(NoContentMessage);
  }
}
