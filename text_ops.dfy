/**
 * The JavaScript string operations the letter pipeline is built from, over `string`
 * (a sequence of Unicode scalar values): `includes`, `indexOf`, `split` and `join` with a
 * non-empty string separator, `replace` with a string pattern, `trim`, and `toLowerCase`
 * restricted to ASCII letters.
 */
module TextOps {
  import opened Wrappers

  // ---------------------------------------------------------------------------
  // Occurrences: includes and indexOf
  // ---------------------------------------------------------------------------

  /** `sub` occurs in `s` starting at index `i`. */
  predicate OccursAt(s: string, sub: string, i: nat) {
    i + |sub| <= |s| && s[i..i + |sub|] == sub
  }

  /** `s.includes(sub)`. */
  predicate Contains(s: string, sub: string) {
    exists i: nat :: i <= |s| && OccursAt(s, sub, i)
  }

  /** `s.indexOf(sub, from)`, with `None` standing for -1. */
  function IndexOfFrom(s: string, sub: string, from: nat): (r: Option<nat>)
    decreases |s| - from
    ensures r.Some? ==> from <= r.value && OccursAt(s, sub, r.value)
    ensures r.Some? ==> forall j: nat :: from <= j < r.value ==> !OccursAt(s, sub, j)
    ensures r.None? ==> forall j: nat :: from <= j ==> !OccursAt(s, sub, j)
  {
    if |s| < from + |sub| then None
    else if s[from..from + |sub|] == sub then Some(from)
    else IndexOfFrom(s, sub, from + 1)
  }

  /** `s.indexOf(sub)`: the first occurrence, found exactly when `s` contains `sub`. */
  function IndexOf(s: string, sub: string): (r: Option<nat>)
    ensures r.Some? <==> Contains(s, sub)
    ensures r.Some? ==> OccursAt(s, sub, r.value)
    ensures r.Some? ==> forall j: nat :: j < r.value ==> !OccursAt(s, sub, j)
  {
    IndexOfFrom(s, sub, 0)
  }

  /** An occurrence at `i` with nothing earlier is the one `indexOf` reports. */
  lemma IndexOfIsFirst(s: string, sub: string, i: nat)
    requires OccursAt(s, sub, i)
    requires forall j: nat :: j < i ==> !OccursAt(s, sub, j)
    ensures IndexOf(s, sub) == Some(i)
  {
    assert Contains(s, sub);
  }

  /** A string lacking one of the characters of `sub` cannot contain `sub`. */
  lemma AbsentCharNotContained(s: string, sub: string, k: nat)
    requires k < |sub| && sub[k] !in s
    ensures !Contains(s, sub)
  {
    forall i: nat | i <= |s|
      ensures !OccursAt(s, sub, i)
    {
      if i + |sub| <= |s| {
        assert s[i..i + |sub|][k] == s[i + k];
      }
    }
  }

  /** Every character of `s` belongs to `alphabet`. */
  predicate Within(s: string, alphabet: set<char>) {
    forall i :: 0 <= i < |s| ==> s[i] in alphabet
  }

  /** A string drawn from an alphabet cannot contain a pattern holding a character outside it. */
  lemma OutsideAlphabet(s: string, alphabet: set<char>, sub: string, k: nat)
    requires Within(s, alphabet) && k < |sub| && sub[k] !in alphabet
    ensures !Contains(s, sub)
  {
  }

  /** Every occurrence in `a + m + b` lies inside `a` or inside `b` when no character of the
      non-empty middle `m` occurs in `sub`. */
  lemma {:induction false} ContainsAcrossSeparator(a: string, m: string, b: string, sub: string)
    requires m != [] && sub != []
    requires forall t :: 0 <= t < |m| ==> m[t] !in sub
    ensures Contains(a + m + b, sub) ==> Contains(a, sub) || Contains(b, sub)
  {
    var s := a + m + b;
    forall i: nat | |a| < i + |sub| && i < |a| + |m|
      ensures !OccursAt(s, sub, i)
    {
      if i + |sub| <= |s| {
        var t: nat := if i < |a| then |a| else i;
        assert i <= t < i + |sub| && |a| <= t < |a| + |m|;
        assert s[t] == m[t - |a|];
        assert m[t - |a|] !in sub;
        assert s[i..i + |sub|][t - i] == s[t];
      }
    }
    if Contains(s, sub) {
      var i: nat :| i <= |s| && OccursAt(s, sub, i);
      if i + |sub| <= |a| {
        assert s[i..i + |sub|] == a[i..i + |sub|];
        assert OccursAt(a, sub, i);
      } else {
        var j: nat := i - |a| - |m|;
        assert s[|a| + |m|..] == b;
        assert s[i..i + |sub|] == b[j..j + |sub|];
        assert OccursAt(b, sub, j);
      }
    }
  }

  // ---------------------------------------------------------------------------
  // split and join
  // ---------------------------------------------------------------------------

  /** `s.split(sep)` for a non-empty separator: cut at each occurrence, scanning left to right. */
  function Split(s: string, sep: string): (parts: seq<string>)
    requires sep != []
    ensures |parts| >= 1
    decreases |s|
  {
    match IndexOf(s, sep)
    case None => [s]
    case Some(i) => [s[..i]] + Split(s[i + |sep|..], sep)
  }

  /** `parts.join(sep)`. */
  function Join(parts: seq<string>, sep: string): string {
    if |parts| == 0 then ""
    else if |parts| == 1 then parts[0]
    else parts[0] + sep + Join(parts[1..], sep)
  }

  /** A join of two or more parts starts with the first part and a separator. */
  lemma JoinCons(head: string, tail: seq<string>, sep: string)
    requires |tail| >= 1
    ensures Join([head] + tail, sep) == head + sep + Join(tail, sep)
  {
    assert ([head] + tail)[1..] == tail;
  }

  /** Joining the pieces of a split gives back the original text. */
  lemma {:induction false} JoinSplit(s: string, sep: string)
    requires sep != []
    ensures Join(Split(s, sep), sep) == s
    decreases |s|
  {
    var r := IndexOf(s, sep);
    if r.Some? {
      var i := r.value;
      var rest := s[i + |sep|..];
      SplitAt(s, sep, i);
      JoinSplit(rest, sep);
      JoinCons(s[..i], Split(rest, sep), sep);
      assert s[i..i + |sep|] == sep;
      assert s == s[..i] + sep + rest;
    }
  }

  /** One step of a split: cut at the first separator. */
  lemma SplitAt(s: string, sep: string, i: nat)
    requires sep != [] && IndexOf(s, sep) == Some(i)
    ensures i + |sep| <= |s|
    ensures Split(s, sep) == [s[..i]] + Split(s[i + |sep|..], sep)
  {
    assert OccursAt(s, sep, i);
    SplitUnfold(s, sep, i);
  }

  lemma {:induction false} SplitUnfold(s: string, sep: string, i: nat)
    requires sep != [] && IndexOf(s, sep) == Some(i) && i + |sep| <= |s|
    ensures Split(s, sep) == [s[..i]] + Split(s[i + |sep|..], sep)
  {
  }

  /** When `sep`'s first character is absent from `a`, the first separator of
      `a + sep + rest` is the one right after `a`. */
  lemma SplitAfterFreePrefix(a: string, sep: string, rest: string)
    requires sep != [] && sep[0] !in a
    ensures IndexOf(a + sep + rest, sep) == Some(|a|)
    ensures Split(a + sep + rest, sep) == [a] + Split(rest, sep)
  {
    var s := a + sep + rest;
    assert s[|a|..|a| + |sep|] == sep;
    forall j: nat | j < |a|
      ensures !OccursAt(s, sep, j)
    {
      assert s[j] == a[j];
      if j + |sep| <= |s| {
        assert s[j..j + |sep|][0] == s[j];
      }
    }
    IndexOfIsFirst(s, sep, |a|);
    assert s[|a| + |sep|..] == rest;
    assert s[..|a|] == a;
  }

  /** No part of the list holds the character `c`. */
  predicate PartsAvoid(parts: seq<string>, c: char) {
    forall k :: 0 <= k < |parts| ==> c !in parts[k]
  }

  /** A concatenation of lists avoids `c` exactly when both lists do. */
  lemma PartsAvoidConcat(a: seq<string>, b: seq<string>, c: char)
    ensures PartsAvoid(a + b, c) <==> PartsAvoid(a, c) && PartsAvoid(b, c)
  {
    if PartsAvoid(a, c) && PartsAvoid(b, c) {
      forall k | 0 <= k < |a + b| ensures c !in (a + b)[k] {
        if k >= |a| {
          assert (a + b)[k] == b[k - |a|];
        }
      }
    }
    if PartsAvoid(a + b, c) {
      forall k | 0 <= k < |a| ensures c !in a[k] {
        assert (a + b)[k] == a[k];
      }
      forall k | 0 <= k < |b| ensures c !in b[k] {
        assert (a + b)[|a| + k] == b[k];
      }
    }
  }

  /** Splitting undoes joining for parts free of the separator's first character. */
  lemma {:induction false} SplitJoin(parts: seq<string>, sep: string)
    requires sep != [] && |parts| >= 1
    requires PartsAvoid(parts, sep[0])
    ensures Split(Join(parts, sep), sep) == parts
  {
    if |parts| == 1 {
      AbsentCharNotContained(parts[0], sep, 0);
    } else {
      SplitAfterFreePrefix(parts[0], sep, Join(parts[1..], sep));
      SplitJoin(parts[1..], sep);
    }
  }

  /** `sep` consists of the single character `d`, repeated. */
  predicate Uniform(sep: string, d: char) {
    forall k :: 0 <= k < |sep| ==> sep[k] == d
  }

  /** In `x + sep + c`, where `sep` repeats `d` and `x` does not end in `d`, the first
      separator either is the one after `x` or lies wholly inside `x`. */
  lemma FirstUniformSeparator(x: string, sep: string, c: string, d: char) returns (i: nat)
    requires sep != [] && Uniform(sep, d)
    requires x == [] || x[|x| - 1] != d
    ensures IndexOf(x + sep + c, sep) == Some(i)
    ensures i == |x| || i + |sep| <= |x|
  {
    var s := x + sep + c;
    assert s[|x|..|x| + |sep|] == sep;
    assert OccursAt(s, sep, |x|);
    forall j: nat | j < |x| < j + |sep|
      ensures !OccursAt(s, sep, j)
    {
      if j + |sep| <= |s| {
        assert s[j..j + |sep|][|x| - 1 - j] == s[|x| - 1];
      }
    }
    i := IndexOf(s, sep).value;
  }

  /** Splitting `x + sep + c` gives the pieces of `x` followed by `c`, when `sep` repeats
      one character `d` that is neither in `c` nor at the end of `x`. */
  lemma {:induction false} SplitSnoc(s: string, x: string, sep: string, c: string, d: char)
    requires sep != [] && Uniform(sep, d)
    requires d !in c
    requires x == [] || x[|x| - 1] != d
    requires s == x + sep + c
    ensures Split(s, sep) == Split(x, sep) + [c]
    decreases |x|
  {
    var i := FirstUniformSeparator(x, sep, c, d);
    SplitAt(s, sep, i);
    if i == |x| {
      assert sep[0] == d;
      SnocBase(s, x, sep, c);
    } else {
      var x' := x[i + |sep|..];
      assert x' == [] || x'[|x'| - 1] == x[|x| - 1];
      DropFromConcat(x, sep, c, i + |sep|);
      SplitSnoc(s[i + |sep|..], x', sep, c, d);
      PrefixIndexOf(x, sep, c, i);
      SnocStep(x, sep, c, i);
    }
  }

  /** The base case of `SplitSnoc`: the first separator is the one right after `x`. */
  lemma SnocBase(s: string, x: string, sep: string, c: string)
    requires sep != [] && sep[0] !in c && s == x + sep + c
    requires IndexOf(s, sep) == Some(|x|)
    ensures Split(s, sep) == Split(x, sep) + [c]
  {
    SplitAt(s, sep, |x|);
    assert s[|x| + |sep|..] == c;
    assert s[..|x|] == x;
    AbsentCharNotContained(c, sep, 0);
    SnocNoEarlier(x, sep, c, |x|);
  }

  /** A first separator right after `x` means none lies inside `x`. */
  lemma SnocNoEarlier(x: string, sep: string, c: string, i: nat)
    requires sep != [] && i == |x| && IndexOf(x + sep + c, sep) == Some(i)
    ensures !Contains(x, sep)
  {
    var s := x + sep + c;
    forall j: nat | j < |x| ensures !OccursAt(x, sep, j) {
      assert !OccursAt(s, sep, j);
      if j + |sep| <= |x| {
        assert s[j..j + |sep|] == x[j..j + |sep|];
      }
    }
  }

  /** A first separator lying wholly inside `x` is also the first one of `x` alone. */
  lemma PrefixIndexOf(x: string, sep: string, c: string, i: nat)
    requires i + |sep| <= |x| && IndexOf(x + sep + c, sep) == Some(i)
    ensures IndexOf(x, sep) == Some(i)
  {
    var s := x + sep + c;
    assert s[i..i + |sep|] == x[i..i + |sep|];
    forall j: nat | j < i ensures !OccursAt(x, sep, j) {
      assert !OccursAt(s, sep, j);
      if j + |sep| <= |x| {
        assert s[j..j + |sep|] == x[j..j + |sep|];
      }
    }
    IndexOfIsFirst(x, sep, i);
  }

  /** The step of `SplitSnoc`: one cut inside `x` is shared by both splits. */
  lemma SnocStep(x: string, sep: string, c: string, i: nat)
    requires sep != [] && i + |sep| <= |x| && IndexOf(x, sep) == Some(i)
    requires Split(x + sep + c, sep) == [(x + sep + c)[..i]] + Split((x + sep + c)[i + |sep|..], sep)
    requires Split((x + sep + c)[i + |sep|..], sep) == Split(x[i + |sep|..], sep) + [c]
    ensures Split(x + sep + c, sep) == Split(x, sep) + [c]
  {
    SplitAt(x, sep, i);
    TakeFromConcat(x, sep, c, i);
    SnocChain(Split(x + sep + c, sep), Split((x + sep + c)[i + |sep|..], sep), Split(x, sep),
              Split(x[i + |sep|..], sep), x[..i], c);
  }

  /** Taking a prefix of the first of three concatenated pieces. */
  lemma TakeFromConcat(x: string, y: string, z: string, k: nat)
    requires k <= |x|
    ensures (x + y + z)[..k] == x[..k]
  {
  }

  /** The list reasoning of the step, on plain lists. */
  lemma SnocChain(whole: seq<string>, tail: seq<string>, front: seq<string>, mid: seq<string>,
                  head: string, c: string)
    requires whole == [head] + tail && tail == mid + [c] && front == [head] + mid
    ensures whole == front + [c]
  {
    assert [head] + (mid + [c]) == ([head] + mid) + [c];
  }

  /** Dropping a prefix of the first of three concatenated pieces. */
  lemma DropFromConcat(x: string, y: string, z: string, k: nat)
    requires k <= |x|
    ensures (x + y + z)[k..] == x[k..] + y + z
  {
  }

  /** Joining a non-empty list with one more part appends a separator and that part. */
  lemma {:induction false} JoinSnoc(parts: seq<string>, last: string, sep: string)
    requires |parts| >= 1
    ensures Join(parts + [last], sep) == Join(parts, sep) + sep + last
    decreases |parts|
  {
    if |parts| == 1 {
      assert (parts + [last])[1..] == [last];
    } else {
      assert (parts + [last])[1..] == parts[1..] + [last];
      JoinSnoc(parts[1..], last, sep);
    }
  }

  /** Joining two non-empty lists back to back puts one separator between their joins. */
  lemma {:induction false} JoinAppend(a: seq<string>, b: seq<string>, sep: string)
    requires |a| >= 1 && |b| >= 1
    ensures Join(a + b, sep) == Join(a, sep) + sep + Join(b, sep)
    decreases |a|
  {
    if |a| == 1 {
      JoinCons(a[0], b, sep);
      assert a + b == [a[0]] + b;
    } else {
      assert (a + b)[1..] == a[1..] + b;
      JoinAppend(a[1..], b, sep);
    }
  }

  /** The three pieces of a concatenation of three sequences, sliced back out. */
  lemma ConcatSlices<T>(a: seq<T>, b: seq<T>, c: seq<T>)
    ensures (a + b + c)[..|a|] == a
    ensures (a + b + c)[|a|..|a| + |b|] == b
    ensures (a + b + c)[|a| + |b|..] == c
  {
    assert (a + b + c)[..|a|] == a;
    assert (a + b + c)[|a|..|a| + |b|] == b;
  }

  /** Updating an element of the middle sequence of a concatenation updates the concatenation. */
  lemma ConcatUpdate<T>(a: seq<T>, b: seq<T>, c: seq<T>, k: nat, x: T)
    requires k < |b|
    ensures a + b[k := x] + c == (a + b + c)[|a| + k := x]
  {
  }

  /** Updating an element leaves everything before it unchanged. */
  lemma UpdateKeepsPrefix<T>(s: seq<T>, k: nat, x: T)
    requires k < |s|
    ensures s[k := x][..k] == s[..k]
  {
  }

  /** A join seen around one inner part: the parts before it, the part, the parts after it. */
  lemma JoinAround(parts: seq<string>, sep: string, k: nat)
    requires 0 < k < |parts| - 1
    ensures Join(parts, sep) == Join(parts[..k], sep) + sep + parts[k] + sep + Join(parts[k + 1..], sep)
  {
    assert parts == parts[..k] + parts[k..];
    JoinAppend(parts[..k], parts[k..], sep);
    assert parts[k..] == [parts[k]] + parts[k + 1..];
    JoinCons(parts[k], parts[k + 1..], sep);
  }

  /** Every part of a list occurs in its join. */
  lemma {:induction false} JoinContainsPart(parts: seq<string>, sep: string, k: nat)
    requires k < |parts|
    ensures Contains(Join(parts, sep), parts[k])
    decreases k
  {
    var j := Join(parts, sep);
    if |parts| == 1 {
      assert OccursAt(j, parts[k], 0);
    } else if k == 0 {
      assert j[..|parts[0]|] == parts[0];
      assert OccursAt(j, parts[k], 0);
    } else {
      JoinContainsPart(parts[1..], sep, k - 1);
      var rest := Join(parts[1..], sep);
      var i: nat :| i <= |rest| && OccursAt(rest, parts[k], i);
      var off := |parts[0]| + |sep|;
      assert j == parts[0] + sep + rest;
      assert j[off + i..off + i + |parts[k]|] == rest[i..i + |parts[k]|];
      assert OccursAt(j, parts[k], off + i);
    }
  }

  /** The last character of a join is the last character of its last, non-empty, part. */
  lemma {:induction false} JoinLastChar(parts: seq<string>, sep: string)
    requires |parts| >= 1 && parts[|parts| - 1] != []
    ensures Join(parts, sep) != []
    ensures Join(parts, sep)[|Join(parts, sep)| - 1] == parts[|parts| - 1][|parts[|parts| - 1]| - 1]
    decreases |parts|
  {
    if |parts| > 1 {
      JoinLastChar(parts[1..], sep);
    }
  }

  /** A join contains `sub` only if one of its parts does, when the separator shares no
      character with `sub`. */
  lemma {:induction false} JoinNotContains(parts: seq<string>, sep: string, sub: string)
    requires sep != [] && sub != []
    requires forall t :: 0 <= t < |sep| ==> sep[t] !in sub
    requires forall k :: 0 <= k < |parts| ==> !Contains(parts[k], sub)
    ensures !Contains(Join(parts, sep), sub)
    decreases |parts|
  {
    if |parts| == 0 {
    } else if |parts| > 1 {
      JoinNotContains(parts[1..], sep, sub);
      ContainsAcrossSeparator(parts[0], sep, Join(parts[1..], sep), sub);
    }
  }

  // ---------------------------------------------------------------------------
  // replace
  // ---------------------------------------------------------------------------

  /** `s.replace(pat, rep)` with a string pattern: only the first occurrence is replaced
      (`rep` is taken literally; the model's replacements contain no `$`). */
  function ReplaceFirst(s: string, pat: string, rep: string): string {
    match IndexOf(s, pat)
    case None => s
    case Some(i) => s[..i] + rep + s[i + |pat|..]
  }

  /** `s.endsWith(suffix)`. */
  predicate EndsWith(s: string, suffix: string) {
    |suffix| <= |s| && s[|s| - |suffix|..] == suffix
  }

  /** `indexOf` finds an occurrence no later than any given one. */
  lemma FoundNoLater(s: string, sub: string, j: nat)
    requires OccursAt(s, sub, j)
    ensures IndexOf(s, sub).Some? && IndexOf(s, sub).value <= j
  {
    assert Contains(s, sub);
  }

  /** A text ends with whatever its last part ends with. */
  lemma EndsWithAppend(x: string, y: string, suffix: string)
    requires EndsWith(y, suffix)
    ensures EndsWith(x + y, suffix)
  {
    assert (x + y)[|x + y| - |suffix|..] == y[|y| - |suffix|..];
  }

  /** Two occurrences of a pattern whose first character does not recur in it cannot overlap. */
  lemma OccurrencesApart(s: string, pat: string, i: nat, j: nat)
    requires pat != [] && pat[0] !in pat[1..]
    requires OccursAt(s, pat, i) && OccursAt(s, pat, j) && i < j
    ensures i + |pat| <= j
  {
  }

  /** When the text and the replacement both end with a pattern whose first character does not
      recur in it, replacing the first occurrence leaves a text that still ends with it: either
      the final occurrence is the first one and the replacement's end takes its place, or an
      earlier occurrence cannot overlap the final one. */
  lemma ReplaceFirstKeepsSuffix(s: string, pat: string, rep: string)
    requires pat != [] && pat[0] !in pat[1..]
    requires EndsWith(s, pat) && EndsWith(rep, pat)
    ensures EndsWith(ReplaceFirst(s, pat, rep), pat)
  {
    var j := |s| - |pat|;
    assert OccursAt(s, pat, j);
    FoundNoLater(s, pat, j);
    var i := IndexOf(s, pat).value;
    var tail := s[i + |pat|..];
    assert ReplaceFirst(s, pat, rep) == (s[..i] + rep) + tail;
    if i == j {
      assert (s[..i] + rep) + tail == s[..i] + rep;
      EndsWithAppend(s[..i], rep, pat);
    } else {
      OccurrencesApart(s, pat, i, j);
      assert tail[|tail| - |pat|..] == s[j..];
      EndsWithAppend(s[..i] + rep, tail, pat);
    }
  }

  /** If `pat` does not occur in `x` and its first character does not recur in it, the first
      occurrence of `pat` in `x + pat` is the final one, so replacing it replaces the end. */
  lemma ReplaceTrailing(x: string, pat: string, rep: string)
    requires pat != [] && pat[0] !in pat[1..]
    requires !Contains(x, pat)
    ensures IndexOf(x + pat, pat) == Some(|x|)
    ensures ReplaceFirst(x + pat, pat, rep) == x + rep
  {
    var s := x + pat;
    assert s[|x|..] == pat;
    forall j: nat | j < |x|
      ensures !OccursAt(s, pat, j)
    {
      if j + |pat| <= |x| {
        assert s[j..j + |pat|] == x[j..j + |pat|];
        assert !OccursAt(x, pat, j);
      } else if j + |pat| <= |s| {
        assert s[j..j + |pat|][|x| - j] == pat[0];
        assert pat[|x| - j] == pat[1..][|x| - j - 1];
      }
    }
    IndexOfIsFirst(s, pat, |x|);
    assert s[..|x|] == x;
    assert s[|x| + |pat|..] == [];
  }

  // ---------------------------------------------------------------------------
  // trim
  // ---------------------------------------------------------------------------

  /** The characters `String.prototype.trim` removes: ECMAScript WhiteSpace (tab, vertical tab,
      form feed, space, no-break space, the byte order mark and every space separator) and
      LineTerminator (LF, CR, LS, PS). */
  predicate IsJsWhitespace(c: char) {
    || c == '\t' || c == '\U{B}' || c == '\U{C}' || c == ' ' || c == '\U{A0}' || c == '\U{FEFF}'
    || c == '\U{1680}' || ('\U{2000}' <= c <= '\U{200A}') || c == '\U{202F}' || c == '\U{205F}'
    || c == '\U{3000}'
    || c == '\n' || c == '\r' || c == '\U{2028}' || c == '\U{2029}'
  }

  predicate AllWhitespace(s: string) {
    forall k :: 0 <= k < |s| ==> IsJsWhitespace(s[k])
  }

  lemma AllWhitespaceSnoc(s: string, c: char)
    requires AllWhitespace(s) && IsJsWhitespace(c)
    ensures AllWhitespace(s + [c])
  {
    forall k | 0 <= k < |s + [c]| ensures IsJsWhitespace((s + [c])[k]) {
      if k < |s| {
        assert (s + [c])[k] == s[k];
      }
    }
  }

  /** `s.trimStart()`: the suffix left after dropping leading whitespace. */
  function TrimStart(s: string): (r: string)
    ensures |r| <= |s| && r == s[|s| - |r|..]
    ensures AllWhitespace(s[..|s| - |r|])
    ensures r == [] || !IsJsWhitespace(r[0])
  {
    if |s| > 0 && IsJsWhitespace(s[0]) then TrimStart(s[1..]) else s
  }

  /** `s.trimEnd()`: the prefix left after dropping trailing whitespace. */
  function TrimEnd(s: string): (r: string)
    ensures |r| <= |s| && r == s[..|r|]
    ensures AllWhitespace(s[|r|..])
    ensures r == [] || !IsJsWhitespace(r[|r| - 1])
  {
    if |s| > 0 && IsJsWhitespace(s[|s| - 1]) then
      var r := TrimEnd(s[..|s| - 1]);
      assert s[..|s| - 1][..|r|] == s[..|r|];
      AllWhitespaceSnoc(s[..|s| - 1][|r|..], s[|s| - 1]);
      assert s[..|s| - 1][|r|..] + [s[|s| - 1]] == s[|r|..];
      r
    else s
  }

  /** `s.trim()`. */
  function Trim(s: string): string {
    TrimEnd(TrimStart(s))
  }

  /** Leading whitespace is invisible to trimStart. */
  lemma {:induction false} TrimStartPadded(w: string, s: string)
    requires AllWhitespace(w)
    ensures TrimStart(w + s) == TrimStart(s)
    decreases |w|
  {
    if w != [] {
      assert IsJsWhitespace(w[0]);
      assert (w + s)[0] == w[0];
      assert (w + s)[1..] == w[1..] + s;
      TrimStartPadded(w[1..], s);
    } else {
      assert w + s == s;
    }
  }

  /** Trailing whitespace is invisible to trimEnd. */
  lemma {:induction false} TrimEndPadded(s: string, w: string)
    requires AllWhitespace(w)
    ensures TrimEnd(s + w) == TrimEnd(s)
    decreases |w|
  {
    if w != [] {
      assert IsJsWhitespace(w[|w| - 1]);
      assert (s + w)[|s + w| - 1] == w[|w| - 1];
      assert (s + w)[..|s + w| - 1] == s + w[..|w| - 1];
      TrimEndPadded(s, w[..|w| - 1]);
    } else {
      assert s + w == s;
    }
  }

  /** Text that is all whitespace trims to the empty string. */
  lemma {:induction false} TrimStartAllWhitespace(s: string)
    requires AllWhitespace(s)
    ensures TrimStart(s) == []
    decreases |s|
  {
    if s != [] {
      TrimStartAllWhitespace(s[1..]);
    }
  }

  /** Text trims to the empty string exactly when it is all whitespace. */
  lemma TrimEmptyIffAllWhitespace(s: string)
    ensures Trim(s) == "" <==> AllWhitespace(s)
  {
    var r := TrimStart(s);
    if Trim(s) == "" {
      assert AllWhitespace(r[0..]);
      assert r == [];
      assert s[..|s| - |r|] == s;
    }
    if AllWhitespace(s) {
      TrimStartAllWhitespace(s);
    }
  }

  /** Appending text after a non-blank string does not touch its leading whitespace. */
  lemma {:induction false} TrimStartAppend(s: string, t: string)
    requires TrimStart(s) != []
    ensures TrimStart(s + t) == TrimStart(s) + t
    decreases |s|
  {
    if IsJsWhitespace(s[0]) {
      assert (s + t)[1..] == s[1..] + t;
      TrimStartAppend(s[1..], t);
    }
  }

  /** Surrounding whitespace never changes what `trim` returns. */
  lemma TrimPadded(w1: string, s: string, w2: string)
    requires AllWhitespace(w1) && AllWhitespace(w2)
    ensures Trim(w1 + s + w2) == Trim(s)
  {
    assert w1 + s + w2 == w1 + (s + w2);
    TrimStartPadded(w1, s + w2);
    if TrimStart(s) == [] {
      assert AllWhitespace(s);
      assert AllWhitespace(s + w2);
      TrimStartAllWhitespace(s + w2);
    } else {
      TrimStartAppend(s, w2);
      TrimEndPadded(TrimStart(s), w2);
    }
  }

  /** Text with no whitespace at either end is its own trim. */
  lemma TrimNoPadding(s: string)
    requires s == [] || (!IsJsWhitespace(s[0]) && !IsJsWhitespace(s[|s| - 1]))
    ensures Trim(s) == s
  {
  }

  /** Trimming twice is trimming once. */
  lemma TrimIdempotent(s: string)
    ensures Trim(Trim(s)) == Trim(s)
  {
    var t := Trim(s);
    if t != [] {
      assert TrimStart(t) == t;
    }
  }

  // ---------------------------------------------------------------------------
  // toLowerCase, for ASCII letters
  // ---------------------------------------------------------------------------

  predicate IsAsciiLetter(c: char) {
    ('A' <= c <= 'Z') || ('a' <= c <= 'z')
  }

  function LowerChar(c: char): char {
    if 'A' <= c <= 'Z' then (c as int + 32) as char else c
  }

  /** `s.toLowerCase()` for ASCII letters; every other character is kept. */
  function ToLowerAscii(s: string): (r: string)
    ensures |r| == |s|
    ensures forall k :: 0 <= k < |s| ==> r[k] == LowerChar(s[k])
  {
    seq(|s|, k requires 0 <= k < |s| => LowerChar(s[k]))
  }

  /** A keyword without ASCII letters (every keyword of the analyser is Hangul) is found in the
      lowercased text exactly when it is found in the original. */
  lemma LowerKeepsKeyword(s: string, kw: string)
    requires forall k :: 0 <= k < |kw| ==> !IsAsciiLetter(kw[k])
    ensures Contains(ToLowerAscii(s), kw) <==> Contains(s, kw)
  {
    var l := ToLowerAscii(s);
    if Contains(l, kw) {
      var i: nat :| i <= |l| && OccursAt(l, kw, i);
      forall k | 0 <= k < |kw| ensures s[i + k] == kw[k] {
        assert l[i + k] == kw[k];
      }
      assert s[i..i + |kw|] == kw;
      assert OccursAt(s, kw, i);
    }
    if Contains(s, kw) {
      var i: nat :| i <= |s| && OccursAt(s, kw, i);
      forall k | 0 <= k < |kw| ensures l[i + k] == kw[k] {
        assert s[i + k] == kw[k];
      }
      assert l[i..i + |kw|] == kw;
      assert OccursAt(l, kw, i);
    }
  }
}
