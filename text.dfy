/**
 * The handful of Python `str` operations the analysis pipeline relies on,
 * restricted to ASCII case and whitespace semantics: `lower`, substring `in`,
 * `split()`, `split(" ")[0]`, `strip`, `strip(chars)`, `" ".join`, and the
 * regular expressions `\d{n}` written as a digit-run predicate.
 */
module Text {

  // ------------------------------------------------------------- builtins

  function Abs(x: int): nat { if x < 0 then -x else x }

  function Max(x: int, y: int): int { if x < y then y else x }

  function Min(x: int, y: int): int { if x < y then x else y }

  // ----------------------------------------------------------- characters

  predicate IsUpperChar(c: char) { 'A' <= c <= 'Z' }

  predicate IsLowerChar(c: char) { 'a' <= c <= 'z' }

  /** A cased character in the ASCII restriction of Python's `isupper`/`istitle`. */
  predicate IsLetter(c: char) { IsUpperChar(c) || IsLowerChar(c) }

  predicate IsDigit(c: char) { '0' <= c <= '9' }

  /** Python's `str.isspace` on ASCII: space, \t, \n, \v, \f, \r and the separators 0x1C-0x1F. */
  predicate IsSpace(c: char)
  {
    c == ' ' || c == '\t' || c == '\n' || c == '\r' || c == '\U{000B}' || c == '\U{000C}'
    || ('\U{001C}' <= c <= '\U{001F}')
  }

  predicate HasLetter(s: string)
  {
    exists i :: 0 <= i < |s| && IsLetter(s[i])
  }

  function LowerChar(c: char): (r: char)
    ensures IsUpperChar(c) ==> IsLowerChar(r) && r as int == c as int + 32
    ensures !IsUpperChar(c) ==> r == c
  {
    if IsUpperChar(c) then (c as int + 32) as char else c
  }

  /** Lower-casing neither adds nor removes a character that has no case. */
  lemma LowerKeepsUncased(s: string, c: char)
    requires !IsLetter(c)
    ensures c in Lower(s) <==> c in s
  {
    if c in Lower(s) {
      var i :| 0 <= i < |s| && Lower(s)[i] == c;
      assert s[i] == c;
    }
    if c in s {
      var i :| 0 <= i < |s| && s[i] == c;
      assert Lower(s)[i] == c;
    }
  }

  /** `s.lower()` */
  function Lower(s: string): (r: string)
    ensures |r| == |s|
    ensures forall i :: 0 <= i < |s| ==> r[i] == LowerChar(s[i])
  {
    seq(|s|, i requires 0 <= i < |s| => LowerChar(s[i]))
  }

  /** `t in s`: t occurs in s as a contiguous block, scanning left to right. */
  predicate Contains(s: string, t: string)
    decreases |s|
  {
    |t| <= |s| && (t <= s || Contains(s[1..], t))
  }

  /** t sits in s at position i. */
  predicate OccursAt(s: string, t: string, i: nat)
  {
    i + |t| <= |s| && s[i..i + |t|] == t
  }

  /** The scan above finds t exactly when t sits at some position of s. */
  lemma {:induction false} ContainsIffOccurs(s: string, t: string)
    ensures Contains(s, t) <==> exists i: nat :: OccursAt(s, t, i)
    decreases |s|
  {
    if |t| <= |s| {
      if t <= s {
        assert OccursAt(s, t, 0);
      } else {
        ContainsIffOccurs(s[1..], t);
        if exists i: nat :: OccursAt(s, t, i) {
          var i: nat :| OccursAt(s, t, i);
          assert i != 0;
          assert s[1..][i - 1..i - 1 + |t|] == s[i..i + |t|];
          assert OccursAt(s[1..], t, i - 1);
        }
        if Contains(s[1..], t) {
          var i: nat :| OccursAt(s[1..], t, i);
          assert s[1..][i..i + |t|] == s[i + 1..i + 1 + |t|];
          assert OccursAt(s, t, i + 1);
        }
      }
    }
  }

  /** Some entry of `vocab` occurs in s (Python's `any(k in s for k in vocab)`). */
  predicate AnyContained(s: string, vocab: seq<string>)
  {
    exists k :: 0 <= k < |vocab| && Contains(s, vocab[k])
  }

  /** The vocabulary test in positional terms: some entry sits at some position of s. */
  lemma AnyContainedIffOccurs(s: string, vocab: seq<string>)
    ensures AnyContained(s, vocab) <==> exists k: nat, i: nat :: k < |vocab| && OccursAt(s, vocab[k], i)
  {
    forall k | 0 <= k < |vocab|
      ensures Contains(s, vocab[k]) <==> exists i: nat :: OccursAt(s, vocab[k], i)
    {
      ContainsIffOccurs(s, vocab[k]);
    }
  }

  /** How many entries of `vocab` occur in s (`len([v for v in vocab if v in s])`). */
  function CountContained(s: string, vocab: seq<string>): (n: nat)
    ensures n <= |vocab|
  {
    if |vocab| == 0 then 0
    else CountContained(s, vocab[..|vocab| - 1]) + (if Contains(s, vocab[|vocab| - 1]) then 1 else 0)
  }

  predicate Distinct<T(==)>(s: seq<T>)
  {
    forall i, j :: 0 <= i < j < |s| ==> s[i] != s[j]
  }

  /** The terms of `vocab` that occur in s. */
  ghost function Found(s: string, vocab: seq<string>): set<string>
  {
    set v | v in vocab && Contains(s, v)
  }

  /** Over a vocabulary without repeats, the count is the size of the set of terms found. */
  lemma {:induction false} CountContainedIsCardinality(s: string, vocab: seq<string>)
    requires Distinct(vocab)
    ensures CountContained(s, vocab) == |Found(s, vocab)|
  {
    if |vocab| > 0 {
      var init, last := vocab[..|vocab| - 1], vocab[|vocab| - 1];
      CountContainedIsCardinality(s, init);
      var before, after := Found(s, init), Found(s, vocab);
      assert vocab == init + [last];
      assert last !in init;
      assert forall v :: v in vocab <==> v in init || v == last;
      if Contains(s, last) {
        assert last !in before;
        assert after == before + {last};
      } else {
        assert after == before;
      }
    }
  }

  // ---------------------------------------------------------------- words

  /** Position i starts a maximal run of non-whitespace characters. */
  predicate WordStartsAt(s: string, i: nat)
    requires i < |s|
  {
    !IsSpace(s[i]) && (i == 0 || IsSpace(s[i - 1]))
  }

  /** `len(s.split())`: the number of maximal non-whitespace runs of s. */
  function CountWords(s: string): nat
  {
    if |s| == 0 then 0
    else CountWords(s[..|s| - 1]) + (if WordStartsAt(s, |s| - 1) then 1 else 0)
  }

  /** Joining two texts with a space neither merges nor splits any word. */
  lemma {:induction false} CountWordsSpaceJoin(a: string, b: string)
    ensures CountWords(a + " " + b) == CountWords(a) + CountWords(b)
    decreases |b|
  {
    var s := a + " " + b;
    if |b| == 0 {
      assert s[..|s| - 1] == a;
    } else {
      var init := b[..|b| - 1];
      CountWordsSpaceJoin(a, init);
      assert s[..|s| - 1] == a + " " + init;
      assert b[..|b| - 1] == init;
      if |b| == 1 {
        assert s[|s| - 2] == ' ';
      } else {
        assert s[|s| - 2] == b[|b| - 2];
      }
    }
  }

  /** `sep.join(xs)` */
  function Join(sep: string, xs: seq<string>): string
  {
    if |xs| == 0 then ""
    else if |xs| == 1 then xs[0]
    else xs[0] + sep + Join(sep, xs[1..])
  }

  function SumWords(xs: seq<string>): nat
  {
    if |xs| == 0 then 0 else CountWords(xs[0]) + SumWords(xs[1..])
  }

  /** `len(" ".join(xs).split())` is the sum of the word counts of the lines. */
  lemma {:induction false} CountWordsOfJoin(xs: seq<string>)
    ensures CountWords(Join(" ", xs)) == SumWords(xs)
  {
    if |xs| == 1 {
      assert xs[1..] == [];
    } else if |xs| > 1 {
      CountWordsOfJoin(xs[1..]);
      CountWordsSpaceJoin(xs[0], Join(" ", xs[1..]));
    }
  }

  lemma {:induction false} SumWordsAppend(xs: seq<string>, ys: seq<string>)
    ensures SumWords(xs + ys) == SumWords(xs) + SumWords(ys)
  {
    if |xs| > 0 {
      assert (xs + ys)[1..] == xs[1..] + ys;
      SumWordsAppend(xs[1..], ys);
    } else {
      assert xs + ys == ys;
    }
  }

  /** Drops leading whitespace. */
  function SkipSpaces(s: string): (r: string)
    ensures |r| <= |s| && r == s[|s| - |r|..]
    ensures |r| > 0 ==> !IsSpace(r[0])
  {
    if |s| > 0 && IsSpace(s[0]) then SkipSpaces(s[1..]) else s
  }

  /** The longest prefix of s for which `stop` never holds. */
  function TakeUntil(s: string, stop: char -> bool): (r: string)
    ensures r <= s
    ensures forall i :: 0 <= i < |r| ==> !stop(r[i])
    ensures |r| < |s| ==> stop(s[|r|])
  {
    if |s| == 0 || stop(s[0]) then "" else [s[0]] + TakeUntil(s[1..], stop)
  }

  /** `s.split()[0]`, or "" when `s.split()` is empty. */
  function FirstWord(s: string): (w: string)
    ensures w == "" <==> forall i :: 0 <= i < |s| ==> IsSpace(s[i])
  {
    var rest := SkipSpaces(s);
    assert forall i :: 0 <= i < |s| - |rest| ==> IsSpace(s[i]) by {
      SkipSpacesSkipsOnlySpaces(s);
    }
    TakeUntil(rest, IsSpace)
  }

  /** A text that opens with a non-space character opens its first word with it. */
  lemma FirstWordOpensText(s: string)
    requires |s| > 0 && !IsSpace(s[0])
    ensures |FirstWord(s)| > 0 && FirstWord(s)[0] == s[0]
  {
    assert SkipSpaces(s) == s;
  }

  lemma {:induction false} SkipSpacesSkipsOnlySpaces(s: string)
    ensures forall i :: 0 <= i < |s| - |SkipSpaces(s)| ==> IsSpace(s[i])
  {
    if |s| > 0 && IsSpace(s[0]) {
      SkipSpacesSkipsOnlySpaces(s[1..]);
    }
  }

  /** Within the text after the leading whitespace, the first word runs up to the next whitespace. */
  lemma FirstWordInRest(s: string)
    ensures var rest := SkipSpaces(s); var w := FirstWord(s);
      w == rest[..|w|] && (|w| < |rest| ==> IsSpace(rest[|w|]))
      && (forall m :: 0 <= m < |w| ==> !IsSpace(w[m]))
  {
  }

  /** `SkipSpaces` drops exactly the leading whitespace. */
  lemma LeadingSpaces(s: string)
    ensures var i := |s| - |SkipSpaces(s)|;
      (forall k :: 0 <= k < i ==> IsSpace(s[k])) && (i < |s| ==> !IsSpace(s[i]))
  {
    SkipSpacesSkipsOnlySpaces(s);
  }

  /**
   * w is the first run of non-whitespace characters of s: it starts at i,
   * where the leading whitespace ends, holds no whitespace, and stops at the
   * next whitespace character or at the end of the text.
   */
  predicate IsFirstRun(s: string, i: nat, w: string)
  {
    (forall k :: 0 <= k < i && k < |s| ==> IsSpace(s[k]))
    && (i < |s| ==> !IsSpace(s[i]))
    && i + |w| <= |s| && w == s[i..i + |w|]
    && (forall m :: 0 <= m < |w| ==> !IsSpace(w[m]))
    && (i + |w| < |s| ==> IsSpace(s[i + |w|]))
  }

  /** `s.split()[0]` is the first run of non-whitespace characters of s. */
  lemma FirstWordIsFirstRun(s: string)
    ensures IsFirstRun(s, |s| - |SkipSpaces(s)|, FirstWord(s))
  {
    FirstWordInRest(s);
    LeadingSpaces(s);
    FirstRunFrom(s, SkipSpaces(s), FirstWord(s));
  }

  /** The first word of the text after the leading whitespace is the text's first run. */
  lemma FirstRunFrom(s: string, rest: string, w: string)
    requires |rest| <= |s| && rest == s[|s| - |rest|..]
    requires forall k :: 0 <= k < |s| - |rest| ==> IsSpace(s[k])
    requires |rest| > 0 ==> !IsSpace(rest[0])
    requires |w| <= |rest| && w == rest[..|w|] && (|w| < |rest| ==> IsSpace(rest[|w|]))
    requires forall m :: 0 <= m < |w| ==> !IsSpace(w[m])
    ensures IsFirstRun(s, |s| - |rest|, w)
  {
    var i := |s| - |rest|;
    assert w == s[i..i + |w|];
    if i < |s| {
      assert s[i] == rest[0];
    }
    if i + |w| < |s| {
      assert s[i + |w|] == rest[|w|];
    }
  }

  /** `s.split(" ")[0]`: everything before the first plain space. */
  function FirstSpaceField(s: string): (w: string)
    ensures w <= s && ' ' !in w
    ensures |w| < |s| ==> s[|w|] == ' '
  {
    TakeUntil(s, c => c == ' ')
  }

  /**
   * r is what is left of s once a leading run and a trailing run of
   * characters from `chars` are cut off.
   */
  predicate IsTrimmedInfix(r: string, s: string, chars: set<char>)
  {
    exists i, j :: 0 <= i <= j <= |s| && r == s[i..j]
      && (forall k :: 0 <= k < i ==> s[k] in chars)
      && (forall k :: j <= k < |s| ==> s[k] in chars)
  }

  /** Cutting one more character from `chars` off the front keeps a trimmed infix. */
  lemma TrimmedInfixDropFirst(r: string, s: string, chars: set<char>)
    requires |s| > 0 && s[0] in chars && IsTrimmedInfix(r, s[1..], chars)
    ensures IsTrimmedInfix(r, s, chars)
  {
    var t := s[1..];
    var i, j :| 0 <= i <= j <= |t| && r == t[i..j]
      && (forall k :: 0 <= k < i ==> t[k] in chars)
      && (forall k :: j <= k < |t| ==> t[k] in chars);
    assert r == s[i + 1..j + 1];
    forall k | 0 <= k < i + 1
      ensures s[k] in chars
    {
      if k > 0 { assert s[k] == t[k - 1]; }
    }
    forall k | j + 1 <= k < |s|
      ensures s[k] in chars
    {
      assert s[k] == t[k - 1];
    }
  }

  /** Cutting one more character from `chars` off the back keeps a trimmed infix. */
  lemma TrimmedInfixDropLast(r: string, s: string, chars: set<char>)
    requires |s| > 0 && s[|s| - 1] in chars && IsTrimmedInfix(r, s[..|s| - 1], chars)
    ensures IsTrimmedInfix(r, s, chars)
  {
    var t := s[..|s| - 1];
    var i, j :| 0 <= i <= j <= |t| && r == t[i..j]
      && (forall k :: 0 <= k < i ==> t[k] in chars)
      && (forall k :: j <= k < |t| ==> t[k] in chars);
    assert r == s[i..j];
    forall k | 0 <= k < i
      ensures s[k] in chars
    {
      assert s[k] == t[k];
    }
    forall k | j <= k < |s|
      ensures s[k] in chars
    {
      if k < |t| { assert s[k] == t[k]; }
    }
  }

  /** `s.strip(chars)` */
  function StripChars(s: string, chars: set<char>): (r: string)
    ensures |r| <= |s|
    ensures IsTrimmedInfix(r, s, chars)
    ensures |r| > 0 ==> r[0] !in chars && r[|r| - 1] !in chars
    ensures forall i :: 0 <= i < |r| ==> r[i] in s
    ensures forall c :: c in s && c !in chars ==> c in r
    ensures |s| > 0 && s[0] !in chars ==> |r| > 0 && r[0] == s[0]
    decreases |s|
  {
    if |s| > 0 && s[0] in chars then
      var r := StripChars(s[1..], chars);
      TrimmedInfixDropFirst(r, s, chars);
      r
    else if |s| > 0 && s[|s| - 1] in chars then
      var r := StripChars(s[..|s| - 1], chars);
      TrimmedInfixDropLast(r, s, chars);
      r
    else
      assert s == s[0..|s|];
      s
  }

  /** `s.strip()` on the text left after filtering to letters and spaces. */
  function StripSpaces(s: string): (r: string)
  {
    StripChars(s, {' '})
  }

  /** n digits start at position i of s. */
  predicate DigitRunAt(s: string, n: nat, i: nat)
  {
    i + n <= |s| && forall j :: i <= j < i + n ==> IsDigit(s[j])
  }

  /** The regular expression `\d{n}` finds a match in s. */
  predicate HasDigitRun(s: string, n: nat)
  {
    exists i :: 0 <= i <= |s| && DigitRunAt(s, n, i)
  }

  /** Lower-casing leaves digits, and so every run of digits, where they were. */
  lemma LowerKeepsDigitRuns(s: string, n: nat)
    ensures HasDigitRun(Lower(s), n) <==> HasDigitRun(s, n)
  {
    forall i | 0 <= i <= |s|
      ensures DigitRunAt(Lower(s), n, i) <==> DigitRunAt(s, n, i)
    {
    }
  }
}
