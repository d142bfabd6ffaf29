/**
 * The natural-language analyser: the keyword classifier used when no model is available,
 * the regular-expression capture of the include and avoid phrases, the defaulting applied to
 * a model's answer, and the text that shows an analysis to the user.
 */
module AnalyzeInput {
  import opened Wrappers
  import opened TextOps
  import opened LetterTypes
  import opened ApiKey

  /** `AnalysisResult`. The codes are plain strings: a model's answer may hold any text. */
  datatype AnalysisResult = AnalysisResult(
    emotion: string,
    tone: string,
    length: string,
    situation: string,
    mustInclude: Option<string>,
    mustAvoid: Option<string>)

  // ---------------------------------------------------------------------------
  // Keyword groups
  // ---------------------------------------------------------------------------

  /** `text` contains at least one of `keywords`. */
  predicate MentionsAny(text: string, keywords: seq<string>) {
    exists k :: 0 <= k < |keywords| && Contains(text, keywords[k])
  }

  /** Group `i` is the first group whose keywords `text` mentions. */
  predicate FirstMentioned<T>(groups: seq<(T, seq<string>)>, text: string, i: int) {
    0 <= i < |groups| && MentionsAny(text, groups[i].1) &&
    forall j :: 0 <= j < i ==> !MentionsAny(text, groups[j].1)
  }

  /** The value of the first group whose keywords `text` mentions, or `default` when it
      mentions none: an `if ... else if ...` chain over the groups, in order. */
  function Classify<T>(groups: seq<(T, seq<string>)>, text: string, default: T): (r: T)
    ensures forall i :: FirstMentioned(groups, text, i) ==> r == groups[i].0
    ensures (forall j :: 0 <= j < |groups| ==> !MentionsAny(text, groups[j].1)) ==> r == default
    ensures r == default || exists i :: 0 <= i < |groups| && r == groups[i].0
  {
    if |groups| == 0 then default
    else if MentionsAny(text, groups[0].1) then groups[0].0
    else
      var r := Classify(groups[1..], text, default);
      assert forall j :: 1 <= j < |groups| ==> groups[j] == groups[1..][j - 1];
      r
  }

  const ApologyWords := ["사과", "미안", "죄송"]
  const ConfessionWords := ["고백", "마음", "사랑"]
  const CelebrationWords := ["축하", "생일", "합격"]
  const GratitudeWords := ["감사", "고마워"]
  const ComfortWords := ["위로", "힘들", "아파"]
  const EncouragementWords := ["격려", "응원", "힘내"]
  const ResignationWords := ["퇴사", "이직"]

  /** The emotion groups, in the order they are tested. */
  const EmotionGroups: seq<(Emotion, seq<string>)> := [
    (Apology, ApologyWords), (Confession, ConfessionWords), (Celebration, CelebrationWords),
    (Gratitude, GratitudeWords), (Comfort, ComfortWords), (Encouragement, EncouragementWords),
    (Resignation, ResignationWords)]

  const FormalWords := ["딱딱", "격식", "정중"]
  const FriendlyWords := ["친근", "편안", "친구"]
  const EmotionalWords := ["감성", "따뜻", "마음"]
  const ConciseWords := ["간결", "짧", "간단"]

  /** The tone groups, in the order they are tested. */
  const ToneGroups: seq<(Tone, seq<string>)> := [
    (Formal, FormalWords), (Friendly, FriendlyWords), (Emotional, EmotionalWords),
    (Concise, ConciseWords)]

  const ShortWords := ["짧", "간단", "간결"]
  const LongWords := ["길", "자세", "풍부"]

  /** The length groups, in the order they are tested. */
  const LengthGroups: seq<(Length, seq<string>)> := [(Short, ShortWords), (Long, LongWords)]

  const IncludeWords := ["포함", "넣어"]
  const AvoidWords := ["피해", "제외", "안 써"]

  // ---------------------------------------------------------------------------
  // The capture `/(kw1|kw2|...).*?(?=\.|요|다|고)/`
  // ---------------------------------------------------------------------------

  /** A character the look-ahead accepts. */
  predicate IsStop(c: char) {
    c == '.' || c == '요' || c == '다' || c == '고'
  }

  /** A character `.` does not match. */
  predicate IsLineTerminator(c: char) {
    c == '\n' || c == '\r' || c == '\U{2028}' || c == '\U{2029}'
  }

  /** The lazy `.*?` can run over `s[from..to]` without meeting a stop or a line break. */
  predicate Crossable(s: string, from: nat, to: nat) {
    from <= to <= |s| && forall k :: from <= k < to ==> !IsStop(s[k]) && !IsLineTerminator(s[k])
  }

  /** `.*?(?=\.|요|다|고)` started at `from`: the position of the first stop character, if the
      scan reaches one before a line break or the end of the text. */
  function LazyEnd(s: string, from: nat): (r: Option<nat>)
    decreases |s| - from
    ensures r.Some? ==> from <= r.value < |s| && IsStop(s[r.value]) && Crossable(s, from, r.value)
    ensures r.None? ==> forall e :: from <= e < |s| && IsStop(s[e]) ==> !Crossable(s, from, e)
  {
    if from >= |s| then None
    else if IsStop(s[from]) then Some(from)
    else if IsLineTerminator(s[from]) then None
    else LazyEnd(s, from + 1)
  }

  /** The end of a match that starts at `p`, trying the alternatives from `a` on, in order:
      the first alternative found at `p` whose lazy scan succeeds decides the end. */
  function MatchFrom(s: string, keywords: seq<string>, p: nat, a: nat): (r: Option<nat>)
    decreases |keywords| - a
    ensures r.Some? ==>
      exists b :: a <= b < |keywords| && OccursAt(s, keywords[b], p) && LazyEnd(s, p + |keywords[b]|) == r
    ensures r.None? ==>
      forall b :: a <= b < |keywords| && OccursAt(s, keywords[b], p) ==> LazyEnd(s, p + |keywords[b]|).None?
  {
    if a >= |keywords| then None
    else if OccursAt(s, keywords[a], p) && LazyEnd(s, p + |keywords[a]|).Some? then
      LazyEnd(s, p + |keywords[a]|)
    else MatchFrom(s, keywords, p, a + 1)
  }

  /** The regular-expression search from `p` on: the leftmost start at which a match exists,
      with its end. */
  function SearchFrom(s: string, keywords: seq<string>, p: nat): (r: Option<(nat, nat)>)
    decreases |s| + 1 - p
    ensures r.Some? ==> p <= r.value.0 && MatchFrom(s, keywords, r.value.0, 0) == Some(r.value.1)
    ensures r.Some? ==> forall q :: p <= q < r.value.0 ==> MatchFrom(s, keywords, q, 0).None?
    ensures r.None? ==> forall q :: p <= q <= |s| ==> MatchFrom(s, keywords, q, 0).None?
  {
    if p > |s| then None
    else match MatchFrom(s, keywords, p, 0)
      case Some(e) => Some((p, e))
      case None => SearchFrom(s, keywords, p + 1)
  }

  /** `m` begins with one of `keywords` and continues with characters that are neither stops
      nor line breaks. */
  predicate IsCapture(m: string, keywords: seq<string>) {
    exists b :: 0 <= b < |keywords| && |keywords[b]| <= |m| && m[..|keywords[b]|] == keywords[b] &&
      Crossable(m, |keywords[b]|, |m|)
  }

  /** `s.match(regex)?.[0]`. */
  function RegexMatch(s: string, keywords: seq<string>): (r: Option<string>)
    ensures r.Some? ==> Contains(s, r.value) && IsCapture(r.value, keywords)
    ensures r.Some? ==> MentionsAny(s, keywords)
  {
    match SearchFrom(s, keywords, 0)
    case None => None
    case Some((p, e)) =>
      CaptureShape(s, keywords, p, e);
      Some(s[p..e])
  }

  /** A match from `p` to `e` is a capture that occurs in `s` right before a stop. */
  lemma CaptureShape(s: string, keywords: seq<string>, p: nat, e: nat)
    requires MatchFrom(s, keywords, p, 0) == Some(e)
    ensures p <= e < |s| && IsStop(s[e])
    ensures Contains(s, s[p..e]) && IsCapture(s[p..e], keywords) && MentionsAny(s, keywords)
  {
    var b :| 0 <= b < |keywords| && OccursAt(s, keywords[b], p) &&
      LazyEnd(s, p + |keywords[b]|) == Some(e);
    var m := s[p..e];
    var n := |keywords[b]|;
    assert m[..n] == keywords[b];
    forall k | n <= k < |m| ensures !IsStop(m[k]) && !IsLineTerminator(m[k]) {
      assert m[k] == s[p + k];
    }
    assert IsCapture(m, keywords);
    assert OccursAt(s, m, p);
    assert Contains(s, keywords[b]);
  }

  /** The search is complete: when some keyword occurs at `p` and a stop character can be
      reached after it, the expression matches, starting no later than `p`. */
  lemma RegexFindsReachableStop(s: string, keywords: seq<string>, p: nat, b: nat, e: nat)
    requires b < |keywords| && OccursAt(s, keywords[b], p)
    requires p + |keywords[b]| <= e < |s| && IsStop(s[e]) && Crossable(s, p + |keywords[b]|, e)
    ensures SearchFrom(s, keywords, 0).Some? && SearchFrom(s, keywords, 0).value.0 <= p
    ensures RegexMatch(s, keywords).Some?
  {
    assert LazyEnd(s, p + |keywords[b]|).Some?;
    assert MatchFrom(s, keywords, p, 0).Some?;
  }

  // ---------------------------------------------------------------------------
  // analyzeWithBasicLogic
  // ---------------------------------------------------------------------------

  /** What `analyzeWithBasicLogic` computes, stated through the keyword groups: every test
      runs on the lower-cased text, and the situation is the text as typed. */
  function BasicAnalysis(userInput: string): (r: AnalysisResult)
    ensures r.situation == userInput
    ensures ParseEmotion(r.emotion).Some? && ParseTone(r.tone).Some? && ParseLength(r.length).Some?
  {
    var input := ToLowerAscii(userInput);
    var e := Classify(EmotionGroups, input, Gratitude);
    var t := Classify(ToneGroups, input, Polite);
    var l := Classify(LengthGroups, input, Medium);
    CodesRoundTrip(e, t, l);
    AnalysisResult(EmotionCode(e), ToneCode(t), LengthCode(l), userInput,
      RegexMatch(input, IncludeWords), RegexMatch(input, AvoidWords))
  }

  /** Classifying against a list that starts with `g` tests `g` first. */
  lemma ClassifyCons<T>(g: (T, seq<string>), rest: seq<(T, seq<string>)>, text: string, default: T)
    ensures Classify([g] + rest, text, default) ==
      if MentionsAny(text, g.1) then g.0 else Classify(rest, text, default)
  {
    assert ([g] + rest)[1..] == rest;
  }

  lemma MentionsTwo(text: string, a: string, b: string)
    ensures MentionsAny(text, [a, b]) <==> Contains(text, a) || Contains(text, b)
  {
    if Contains(text, a) {
      assert [a, b][0] == a;
    }
    if Contains(text, b) {
      assert [a, b][1] == b;
    }
  }

  lemma MentionsThree(text: string, a: string, b: string, c: string)
    ensures MentionsAny(text, [a, b, c]) <==> Contains(text, a) || Contains(text, b) || Contains(text, c)
  {
    if Contains(text, a) {
      assert [a, b, c][0] == a;
    }
    if Contains(text, b) {
      assert [a, b, c][1] == b;
    }
    if Contains(text, c) {
      assert [a, b, c][2] == c;
    }
  }

  /** The emotion groups, unrolled into the chain of tests. */
  lemma EmotionChain(input: string)
    ensures Classify(EmotionGroups, input, Gratitude) ==
      if MentionsAny(input, ApologyWords) then Apology
      else if MentionsAny(input, ConfessionWords) then Confession
      else if MentionsAny(input, CelebrationWords) then Celebration
      else if MentionsAny(input, GratitudeWords) then Gratitude
      else if MentionsAny(input, ComfortWords) then Comfort
      else if MentionsAny(input, EncouragementWords) then Encouragement
      else if MentionsAny(input, ResignationWords) then Resignation
      else Gratitude
  {
    var g6: seq<(Emotion, seq<string>)> := [(Resignation, ResignationWords)];
    var g5 := [(Encouragement, EncouragementWords)] + g6;
    var g4 := [(Comfort, ComfortWords)] + g5;
    var g3 := [(Gratitude, GratitudeWords)] + g4;
    var g2 := [(Celebration, CelebrationWords)] + g3;
    var g1 := [(Confession, ConfessionWords)] + g2;
    assert EmotionGroups == [(Apology, ApologyWords)] + g1;
    ClassifyCons((Apology, ApologyWords), g1, input, Gratitude);
    ClassifyCons((Confession, ConfessionWords), g2, input, Gratitude);
    ClassifyCons((Celebration, CelebrationWords), g3, input, Gratitude);
    ClassifyCons((Gratitude, GratitudeWords), g4, input, Gratitude);
    ClassifyCons((Comfort, ComfortWords), g5, input, Gratitude);
    ClassifyCons((Encouragement, EncouragementWords), g6, input, Gratitude);
    ClassifyCons((Resignation, ResignationWords), [], input, Gratitude);
    assert g6 == [(Resignation, ResignationWords)] + [];
  }

  /** The tone groups, unrolled into the chain of tests. */
  lemma ToneChain(input: string)
    ensures Classify(ToneGroups, input, Polite) ==
      if MentionsAny(input, FormalWords) then Formal
      else if MentionsAny(input, FriendlyWords) then Friendly
      else if MentionsAny(input, EmotionalWords) then Emotional
      else if MentionsAny(input, ConciseWords) then Concise
      else Polite
  {
    var g3: seq<(Tone, seq<string>)> := [(Concise, ConciseWords)];
    var g2 := [(Emotional, EmotionalWords)] + g3;
    var g1 := [(Friendly, FriendlyWords)] + g2;
    assert ToneGroups == [(Formal, FormalWords)] + g1;
    ClassifyCons((Formal, FormalWords), g1, input, Polite);
    ClassifyCons((Friendly, FriendlyWords), g2, input, Polite);
    ClassifyCons((Emotional, EmotionalWords), g3, input, Polite);
    ClassifyCons((Concise, ConciseWords), [], input, Polite);
    assert g3 == [(Concise, ConciseWords)] + [];
  }

  /** The length groups, unrolled into the chain of tests. */
  lemma LengthChain(input: string)
    ensures Classify(LengthGroups, input, Medium) ==
      if MentionsAny(input, ShortWords) then Short
      else if MentionsAny(input, LongWords) then Long
      else Medium
  {
    var g1: seq<(Length, seq<string>)> := [(Long, LongWords)];
    assert LengthGroups == [(Short, ShortWords)] + g1;
    ClassifyCons((Short, ShortWords), g1, input, Medium);
    ClassifyCons((Long, LongWords), [], input, Medium);
    assert g1 == [(Long, LongWords)] + [];
  }

  /** The emotion chain as the source writes it, with each group's `includes` tests. */
  lemma EmotionTests(input: string)
    ensures EmotionCode(Classify(EmotionGroups, input, Gratitude)) ==
      if Contains(input, "사과") || Contains(input, "미안") || Contains(input, "죄송") then "apology"
      else if Contains(input, "고백") || Contains(input, "마음") || Contains(input, "사랑") then "confession"
      else if Contains(input, "축하") || Contains(input, "생일") || Contains(input, "합격") then "celebration"
      else if Contains(input, "감사") || Contains(input, "고마워") then "gratitude"
      else if Contains(input, "위로") || Contains(input, "힘들") || Contains(input, "아파") then "comfort"
      else if Contains(input, "격려") || Contains(input, "응원") || Contains(input, "힘내") then "encouragement"
      else if Contains(input, "퇴사") || Contains(input, "이직") then "resignation"
      else "gratitude"
  {
    EmotionChain(input);
    MentionsThree(input, "사과", "미안", "죄송");
    MentionsThree(input, "고백", "마음", "사랑");
    MentionsThree(input, "축하", "생일", "합격");
    MentionsTwo(input, "감사", "고마워");
    MentionsThree(input, "위로", "힘들", "아파");
    MentionsThree(input, "격려", "응원", "힘내");
    MentionsTwo(input, "퇴사", "이직");
  }

  /** The tone chain as the source writes it. */
  lemma ToneTests(input: string)
    ensures ToneCode(Classify(ToneGroups, input, Polite)) ==
      if Contains(input, "딱딱") || Contains(input, "격식") || Contains(input, "정중") then "formal"
      else if Contains(input, "친근") || Contains(input, "편안") || Contains(input, "친구") then "friendly"
      else if Contains(input, "감성") || Contains(input, "따뜻") || Contains(input, "마음") then "emotional"
      else if Contains(input, "간결") || Contains(input, "짧") || Contains(input, "간단") then "concise"
      else "polite"
  {
    ToneChain(input);
    MentionsThree(input, "딱딱", "격식", "정중");
    MentionsThree(input, "친근", "편안", "친구");
    MentionsThree(input, "감성", "따뜻", "마음");
    MentionsThree(input, "간결", "짧", "간단");
  }

  /** The length chain as the source writes it. */
  lemma LengthTests(input: string)
    ensures LengthCode(Classify(LengthGroups, input, Medium)) ==
      if Contains(input, "짧") || Contains(input, "간단") || Contains(input, "간결") then "short"
      else if Contains(input, "길") || Contains(input, "자세") || Contains(input, "풍부") then "long"
      else "medium"
  {
    LengthChain(input);
    MentionsThree(input, "짧", "간단", "간결");
    MentionsThree(input, "길", "자세", "풍부");
  }

  /** A capture exists only when one of its keywords occurs, so the guards in front of the two
      `match` calls change nothing. */
  lemma CaptureTests(input: string)
    ensures RegexMatch(input, IncludeWords).Some? ==> Contains(input, "포함") || Contains(input, "넣어")
    ensures RegexMatch(input, AvoidWords).Some? ==>
      Contains(input, "피해") || Contains(input, "제외") || Contains(input, "안 써")
  {
    MentionsTwo(input, "포함", "넣어");
    MentionsThree(input, "피해", "제외", "안 써");
  }

  /** The fields of the basic analysis, each as the chain of tests that decides it. */
  lemma BasicFields(userInput: string)
    ensures var input := ToLowerAscii(userInput); var r := BasicAnalysis(userInput);
      r.emotion == EmotionCode(Classify(EmotionGroups, input, Gratitude)) &&
      r.tone == ToneCode(Classify(ToneGroups, input, Polite)) &&
      r.length == LengthCode(Classify(LengthGroups, input, Medium)) &&
      r.mustInclude == RegexMatch(input, IncludeWords) && r.mustAvoid == RegexMatch(input, AvoidWords)
  {
  }

  /** `analyzeWithBasicLogic`: the three `if ... else if` chains, then the two captures, each
      attempted only when one of its keywords occurs. */
  method AnalyzeWithBasicLogic(userInput: string) returns (r: AnalysisResult)
    ensures r == BasicAnalysis(userInput)
  {
    var input := ToLowerAscii(userInput);
    ghost var spec := BasicAnalysis(userInput);
    BasicFields(userInput);
    CaptureTests(input);

    var emotion := "gratitude";
    if Contains(input, "사과") || Contains(input, "미안") || Contains(input, "죄송") {
      emotion := "apology";
    } else if Contains(input, "고백") || Contains(input, "마음") || Contains(input, "사랑") {
      emotion := "confession";
    } else if Contains(input, "축하") || Contains(input, "생일") || Contains(input, "합격") {
      emotion := "celebration";
    } else if Contains(input, "감사") || Contains(input, "고마워") {
      emotion := "gratitude";
    } else if Contains(input, "위로") || Contains(input, "힘들") || Contains(input, "아파") {
      emotion := "comfort";
    } else if Contains(input, "격려") || Contains(input, "응원") || Contains(input, "힘내") {
      emotion := "encouragement";
    } else if Contains(input, "퇴사") || Contains(input, "이직") {
      emotion := "resignation";
    }

    EmotionTests(input);
    assert emotion == spec.emotion;

    var tone := "polite";
    if Contains(input, "딱딱") || Contains(input, "격식") || Contains(input, "정중") {
      tone := "formal";
    } else if Contains(input, "친근") || Contains(input, "편안") || Contains(input, "친구") {
      tone := "friendly";
    } else if Contains(input, "감성") || Contains(input, "따뜻") || Contains(input, "마음") {
      tone := "emotional";
    } else if Contains(input, "간결") || Contains(input, "짧") || Contains(input, "간단") {
      tone := "concise";
    }

    ToneTests(input);
    assert tone == spec.tone;

    var length := "medium";
    if Contains(input, "짧") || Contains(input, "간단") || Contains(input, "간결") {
      length := "short";
    } else if Contains(input, "길") || Contains(input, "자세") || Contains(input, "풍부") {
      length := "long";
    }

    LengthTests(input);
    assert length == spec.length;

    var mustInclude: Option<string> := None;
    var mustAvoid: Option<string> := None;
    if Contains(input, "포함") || Contains(input, "넣어") {
      var includeMatch := RegexMatch(input, IncludeWords);
      if includeMatch.Some? {
        mustInclude := includeMatch;
      }
    }
    if Contains(input, "피해") || Contains(input, "제외") || Contains(input, "안 써") {
      var avoidMatch := RegexMatch(input, AvoidWords);
      if avoidMatch.Some? {
        mustAvoid := avoidMatch;
      }
    }

    r := AnalysisResult(emotion, tone, length, userInput, mustInclude, mustAvoid);
  }

  // ---------------------------------------------------------------------------
  // What the basic analysis promises, on the text as typed
  // ---------------------------------------------------------------------------

  /** Lower-casing the text does not change which of these keywords it mentions: every
      keyword is Hangul. */
  lemma CaselessMentions(u: string, a: string, b: string, c: string)
    requires forall k :: 0 <= k < |a| ==> !IsAsciiLetter(a[k])
    requires forall k :: 0 <= k < |b| ==> !IsAsciiLetter(b[k])
    requires forall k :: 0 <= k < |c| ==> !IsAsciiLetter(c[k])
    ensures Contains(ToLowerAscii(u), a) <==> Contains(u, a)
    ensures Contains(ToLowerAscii(u), b) <==> Contains(u, b)
    ensures Contains(ToLowerAscii(u), c) <==> Contains(u, c)
  {
    LowerKeepsKeyword(u, a);
    LowerKeepsKeyword(u, b);
    LowerKeepsKeyword(u, c);
  }

  /** Any mention of 사과, 미안 or 죄송 makes the letter an apology; otherwise 마음 makes it a
      confession, whatever else (감사, say) the text mentions. */
  lemma EmotionPriority(u: string)
    ensures Contains(u, "사과") || Contains(u, "미안") || Contains(u, "죄송") ==>
      BasicAnalysis(u).emotion == "apology"
    ensures !Contains(u, "사과") && !Contains(u, "미안") && !Contains(u, "죄송") && Contains(u, "마음") ==>
      BasicAnalysis(u).emotion == "confession"
  {
    CaselessMentions(u, "사과", "미안", "죄송");
    LowerKeepsKeyword(u, "마음");
    BasicFields(u);
    EmotionTests(ToLowerAscii(u));
  }

  /** The tone: formal, friendly, emotional and concise keywords are tested in that order. */
  lemma TonePriority(u: string)
    ensures BasicAnalysis(u).tone ==
      if Contains(u, "딱딱") || Contains(u, "격식") || Contains(u, "정중") then "formal"
      else if Contains(u, "친근") || Contains(u, "편안") || Contains(u, "친구") then "friendly"
      else if Contains(u, "감성") || Contains(u, "따뜻") || Contains(u, "마음") then "emotional"
      else if Contains(u, "간결") || Contains(u, "짧") || Contains(u, "간단") then "concise"
      else "polite"
  {
    CaselessMentions(u, "딱딱", "격식", "정중");
    CaselessMentions(u, "친근", "편안", "친구");
    CaselessMentions(u, "감성", "따뜻", "마음");
    CaselessMentions(u, "간결", "짧", "간단");
    BasicFields(u);
    ToneTests(ToLowerAscii(u));
  }

  /** The length: short keywords win over long ones; medium otherwise. */
  lemma LengthPriority(u: string)
    ensures BasicAnalysis(u).length ==
      if Contains(u, "짧") || Contains(u, "간단") || Contains(u, "간결") then "short"
      else if Contains(u, "길") || Contains(u, "자세") || Contains(u, "풍부") then "long"
      else "medium"
  {
    CaselessMentions(u, "짧", "간단", "간결");
    CaselessMentions(u, "길", "자세", "풍부");
    BasicFields(u);
    LengthTests(ToLowerAscii(u));
  }

  /** An include text is found only when the text mentions 포함 or 넣어, and then it is a piece
      of the lower-cased text that starts with that keyword and runs up to, not including, the
      first stop, with no line break in between; the avoid text likewise with 피해, 제외 and
      안 써. */
  lemma CapturedPhrases(u: string)
    ensures BasicAnalysis(u).mustInclude.Some? ==>
      (Contains(u, "포함") || Contains(u, "넣어")) &&
      Contains(ToLowerAscii(u), BasicAnalysis(u).mustInclude.value) &&
      IsCapture(BasicAnalysis(u).mustInclude.value, IncludeWords)
    ensures BasicAnalysis(u).mustAvoid.Some? ==>
      (Contains(u, "피해") || Contains(u, "제외") || Contains(u, "안 써")) &&
      Contains(ToLowerAscii(u), BasicAnalysis(u).mustAvoid.value) &&
      IsCapture(BasicAnalysis(u).mustAvoid.value, AvoidWords)
  {
    LowerKeepsKeyword(u, "포함");
    LowerKeepsKeyword(u, "넣어");
    CaselessMentions(u, "피해", "제외", "안 써");
    BasicFields(u);
    CaptureTests(ToLowerAscii(u));
  }

  // ---------------------------------------------------------------------------
  // Worked requests: the sample shown by the natural-language input box
  // ---------------------------------------------------------------------------

  /** "I want to write an apology letter to a friend", the first sentence of the sample. */
  const FriendApology: string := "친구에게 사과 편지를 쓰고 싶어요"

  /** The whole sample: "… to a friend. I am so sorry about ruining the exam. Please make it
      not too stiff." */
  const BoxSample: string := FriendApology + ". 시험 망친 일 때문에 너무 미안해요. 너무 딱딱하진 않게 부탁해요."

  /** The characters of the first sentence, and those of the whole sample. */
  const FriendAlphabet: set<char> :=
    {' ', '친', '구', '에', '게', '사', '과', '편', '지', '를', '쓰', '고', '싶', '어', '요'}
  const BoxAlphabet: set<char> :=
    {' ', '친', '구', '에', '게', '사', '과', '편', '지', '를', '쓰', '고', '싶', '어', '요',
     '.', '시', '험', '망', '일', '때', '문', '너', '무', '미', '안', '해', '딱', '하', '진', '않', '부', '탁'}

  lemma FriendApologyWithin()
    ensures Within(FriendApology, FriendAlphabet) && Within(FriendApology, BoxAlphabet)
  {
  }

  lemma BoxSampleWithin()
    ensures Within(BoxSample, BoxAlphabet)
  {
  }

  /** A text drawn from the sample's characters mentions no length keyword. */
  lemma NoLengthKeyword(s: string)
    requires Within(s, BoxAlphabet)
    ensures !Contains(s, "짧") && !Contains(s, "간단") && !Contains(s, "간결")
    ensures !Contains(s, "길") && !Contains(s, "자세") && !Contains(s, "풍부")
  {
    OutsideAlphabet(s, BoxAlphabet, "짧", 0);
    OutsideAlphabet(s, BoxAlphabet, "간단", 0);
    OutsideAlphabet(s, BoxAlphabet, "간결", 0);
    OutsideAlphabet(s, BoxAlphabet, "길", 0);
    OutsideAlphabet(s, BoxAlphabet, "자세", 0);
    OutsideAlphabet(s, BoxAlphabet, "풍부", 0);
  }

  /** Nor does it mention an include or avoid keyword (안 is there, 써 is not). */
  lemma NoCaptureKeyword(s: string)
    requires Within(s, BoxAlphabet)
    ensures !Contains(s, "포함") && !Contains(s, "넣어")
    ensures !Contains(s, "피해") && !Contains(s, "제외") && !Contains(s, "안 써")
  {
    OutsideAlphabet(s, BoxAlphabet, "포함", 0);
    OutsideAlphabet(s, BoxAlphabet, "넣어", 0);
    OutsideAlphabet(s, BoxAlphabet, "피해", 0);
    OutsideAlphabet(s, BoxAlphabet, "제외", 0);
    OutsideAlphabet(s, BoxAlphabet, "안 써", 2);
  }

  /** A text drawn from the first sentence's characters mentions no formal-tone keyword. */
  lemma NoFormalKeyword(s: string)
    requires Within(s, FriendAlphabet)
    ensures !Contains(s, "딱딱") && !Contains(s, "격식") && !Contains(s, "정중")
  {
    OutsideAlphabet(s, FriendAlphabet, "딱딱", 0);
    OutsideAlphabet(s, FriendAlphabet, "격식", 0);
    OutsideAlphabet(s, FriendAlphabet, "정중", 0);
  }

  /** The first sentence alone is an apology in a friendly tone (친구 is a friendly keyword),
      of medium length, with nothing to include or avoid. */
  lemma FriendApologyAnalysis()
    ensures BasicAnalysis(FriendApology) ==
      AnalysisResult("apology", "friendly", "medium", FriendApology, None, None)
  {
    var u := FriendApology;
    assert u[5] == '사' && u[6] == '과' && u[0] == '친' && u[1] == '구';
    assert OccursAt(u, "사과", 5) && OccursAt(u, "친구", 0);
    FriendApologyWithin();
    NoFormalKeyword(u);
    NoLengthKeyword(u);
    NoCaptureKeyword(u);
    EmotionPriority(u);
    TonePriority(u);
    LengthPriority(u);
    CapturedPhrases(u);
  }

  /** The whole sample is an apology of medium length with nothing to include or avoid, but
      its tone is formal: asking for a letter that is "not too stiff" (딱딱하진 않게) mentions
      the formal keyword 딱딱, and formal is tested before friendly. */
  lemma BoxSampleAnalysis()
    ensures BasicAnalysis(BoxSample) ==
      AnalysisResult("apology", "formal", "medium", BoxSample, None, None)
  {
    var u := BoxSample;
    assert u[5] == '사' && u[6] == '과' && u[44] == '딱' && u[45] == '딱';
    assert OccursAt(u, "사과", 5) && OccursAt(u, "딱딱", 44);
    BoxSampleWithin();
    NoLengthKeyword(u);
    NoCaptureKeyword(u);
    EmotionPriority(u);
    TonePriority(u);
    LengthPriority(u);
    CapturedPhrases(u);
  }

  // ---------------------------------------------------------------------------
  // analyzeUserInput: the model's answer, defaulted
  // ---------------------------------------------------------------------------

  /** The fields of the object parsed out of the model's answer; `None` is a missing field. */
  datatype ParsedFields = ParsedFields(
    emotion: Option<string>,
    tone: Option<string>,
    length: Option<string>,
    situation: Option<string>,
    mustInclude: Option<string>,
    mustAvoid: Option<string>)

  /** What asking the model for an analysis comes to: the parsed object, or nothing usable (a
      timeout, a rejected request, no choices, empty content, no braces, a parse error). */
  datatype AnalysisReply = Answered(fields: ParsedFields) | Unanswered

  /** A field is truthy when it is present and not the empty string. */
  predicate Truthy(v: Option<string>) {
    v.Some? && v.value != ""
  }

  /** `v || fallback`. */
  function OrElse(v: Option<string>, fallback: string): (r: string)
    ensures Truthy(v) ==> r == v.value
    ensures !Truthy(v) ==> r == fallback
  {
    if Truthy(v) then v.value else fallback
  }

  /** The object returned from the parsed answer. Defaulting never leaves a code empty: a
      truthy field is kept, a falsy one takes its default, and a falsy situation becomes the
      text as typed; the include and avoid texts are the answer's own. */
  function FromAnswer(f: ParsedFields, userInput: string): (r: AnalysisResult)
    ensures r.emotion != "" && r.tone != "" && r.length != ""
    ensures userInput != "" ==> r.situation != ""
    ensures Truthy(f.emotion) ==> r.emotion == f.emotion.value
    ensures !Truthy(f.emotion) ==> r.emotion == EmotionCode(Gratitude)
    ensures Truthy(f.tone) ==> r.tone == f.tone.value
    ensures !Truthy(f.tone) ==> r.tone == ToneCode(Polite)
    ensures Truthy(f.length) ==> r.length == f.length.value
    ensures !Truthy(f.length) ==> r.length == LengthCode(Medium)
    ensures Truthy(f.situation) ==> r.situation == f.situation.value
    ensures !Truthy(f.situation) ==> r.situation == userInput
    ensures r.mustInclude == f.mustInclude && r.mustAvoid == f.mustAvoid
  {
    AnalysisResult(
      OrElse(f.emotion, "gratitude"), OrElse(f.tone, "polite"), OrElse(f.length, "medium"),
      OrElse(f.situation, userInput), f.mustInclude, f.mustAvoid)
  }

  /** The analysis `analyzeUserInput` returns, given whether a client exists and what the model
      would answer: every path without a usable answer falls back to the basic analysis. */
  function UserInputAnalysis(hasClient: bool, reply: AnalysisReply, userInput: string): (r: AnalysisResult)
    ensures r.emotion != "" && r.tone != "" && r.length != ""
  {
    BasicFields(userInput);
    if hasClient && reply.Answered? then FromAnswer(reply.fields, userInput) else BasicAnalysis(userInput)
  }

  /** A defaulted code is a code of its enumeration exactly when the model gave none or gave
      one: the model's own words for an emotion (its instructions name them in Korean) are kept
      as they are and are not codes. */
  lemma AnswerCodes(f: ParsedFields, userInput: string)
    ensures ParseEmotion(FromAnswer(f, userInput).emotion).Some? <==>
      !Truthy(f.emotion) || ParseEmotion(f.emotion.value).Some?
    ensures ParseTone(FromAnswer(f, userInput).tone).Some? <==>
      !Truthy(f.tone) || ParseTone(f.tone.value).Some?
    ensures ParseLength(FromAnswer(f, userInput).length).Some? <==>
      !Truthy(f.length) || ParseLength(f.length.value).Some?
    ensures f.emotion == Some("사과") ==> ParseEmotion(FromAnswer(f, userInput).emotion).None?
  {
    CodesRoundTrip(Gratitude, Polite, Medium);
  }

  /** Without a client, or without a usable answer, the result is the basic analysis; an answer
      that leaves every field out gives the defaults and the text as typed. */
  lemma UserInputAnalysisCases(hasClient: bool, reply: AnalysisReply, userInput: string)
    ensures !hasClient || reply.Unanswered? ==>
      UserInputAnalysis(hasClient, reply, userInput) == BasicAnalysis(userInput)
    ensures hasClient && reply == Answered(ParsedFields(None, None, None, None, None, None)) ==>
      UserInputAnalysis(hasClient, reply, userInput) ==
      AnalysisResult("gratitude", "polite", "medium", userInput, None, None)
    ensures UserInputAnalysis(hasClient, reply, userInput).situation == userInput ||
      (hasClient && reply.Answered? && Truthy(reply.fields.situation))
  {
    BasicFields(userInput);
  }

  /** `analyzeUserInput`: the client is created on first use when the key is usable; the model
      is asked only when a client exists. */
  method AnalyzeUserInput(slot: ClientSlot, key: Option<string>, userInput: string,
                          service: string -> AnalysisReply)
    returns (r: AnalysisResult)
    modifies slot
    ensures slot.ready == (old(slot.ready) || UsableKey(key))
    ensures r == UserInputAnalysis(slot.ready, service(userInput), userInput)
  {
    slot.EnsureInitialized(key);
    if !slot.ready {
      r := AnalyzeWithBasicLogic(userInput);
      return;
    }
    var reply := service(userInput);
    match reply
    case Unanswered =>
      r := AnalyzeWithBasicLogic(userInput);
    case Answered(f) =>
      r := FromAnswer(f, userInput);
  }
}
