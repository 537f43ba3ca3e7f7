/**
 * The string operations the pipeline leans on: substring tests, prefix and suffix
 * tests, whitespace stripping, ASCII case mapping, character removal and the
 * splitting and title-casing used to build camelCase keys.
 */
module Text {

  /** Python's `str.isspace` for a single character. */
  predicate IsSpace(c: char)
  {
    c == ' ' || ('\t' <= c <= '\r') || ('\U{1c}' <= c <= '\U{1f}')
    || c == '\U{85}' || c == '\U{a0}' || c == '\U{1680}'
    || ('\U{2000}' <= c <= '\U{200a}') || c == '\U{2028}' || c == '\U{2029}'
    || c == '\U{202f}' || c == '\U{205f}' || c == '\U{3000}'
  }

  predicate StartsWith(s: string, prefix: string)
  {
    |prefix| <= |s| && s[..|prefix|] == prefix
  }

  predicate EndsWith(s: string, suffix: string)
  {
    |suffix| <= |s| && s[|s| - |suffix|..] == suffix
  }

  /** `needle` occurs in `hay` starting at position `i`. */
  predicate OccursAt(hay: string, needle: string, i: int)
  {
    0 <= i <= |hay| - |needle| && hay[i..i + |needle|] == needle
  }

  /** Python's `needle in hay` on strings. */
  predicate Contains(hay: string, needle: string)
  {
    exists i :: 0 <= i <= |hay| - |needle| && OccursAt(hay, needle, i)
  }

  /** A witness position is enough to establish `Contains`. */
  lemma ContainsAt(hay: string, needle: string, i: int)
    requires OccursAt(hay, needle, i)
    ensures Contains(hay, needle)
  {
  }

  lemma ContainsSelf(s: string)
    ensures Contains(s, s)
  {
    assert OccursAt(s, s, 0);
  }

  /** A needle found inside a part is found inside the whole. */
  lemma ContainsConcat(a: string, b: string, c: string, needle: string)
    requires Contains(b, needle)
    ensures Contains(a + b + c, needle)
  {
    var i :| 0 <= i <= |b| - |needle| && OccursAt(b, needle, i);
    assert (a + b + c)[|a| + i..|a| + i + |needle|] == b[i..i + |needle|];
    assert OccursAt(a + b + c, needle, |a| + i);
  }

  function StripLeft(s: string): (r: string)
    ensures |r| <= |s| && r == s[|s| - |r|..]
    ensures forall i :: 0 <= i < |s| - |r| ==> IsSpace(s[i])
    ensures r != [] ==> !IsSpace(r[0])
  {
    if s != [] && IsSpace(s[0]) then StripLeft(s[1..]) else s
  }

  function StripRight(s: string): (r: string)
    ensures |r| <= |s| && r == s[..|r|]
    ensures forall i :: |r| <= i < |s| ==> IsSpace(s[i])
    ensures r != [] ==> !IsSpace(r[|r| - 1])
  {
    if s != [] && IsSpace(s[|s| - 1]) then StripRight(s[..|s| - 1]) else s
  }

  /**
   * Python's `str.strip()` with no argument: what it returns is no longer than the text
   * and neither starts nor ends with whitespace.
   */
  function Strip(s: string): (r: string)
    ensures |r| <= |s|
    ensures r == [] || (!IsSpace(r[0]) && !IsSpace(r[|r| - 1]))
  {
    var l := StripLeft(s);
    var r := StripRight(l);
    assert r != [] ==> r[0] == l[0];
    r
  }

  /** `Strip` keeps a contiguous slice `s[i..i + |r|]` and removes only whitespace around it. */
  lemma StripSpec(s: string) returns (i: nat)
    ensures var r := Strip(s);
      (r == [] || (!IsSpace(r[0]) && !IsSpace(r[|r| - 1])))
      && i + |r| <= |s| && s[i..i + |r|] == r
      && (forall k :: 0 <= k < i ==> IsSpace(s[k]))
      && (forall k :: i + |r| <= k < |s| ==> IsSpace(s[k]))
  {
    var l := StripLeft(s);
    i := |s| - |l|;
    assert l == s[i..];
    assert forall k :: 0 <= k < i ==> IsSpace(s[k]);
    StripRightWithin(s, i);
    var r := Strip(s);
    assert r == StripRight(s[i..]);
  }

  /** Stripping the right of the suffix `s[i..]` keeps a slice of `s` followed only by whitespace. */
  lemma StripRightWithin(s: string, i: nat)
    requires i <= |s|
    ensures var r := StripRight(s[i..]);
      i + |r| <= |s| && s[i..i + |r|] == r && forall k :: i + |r| <= k < |s| ==> IsSpace(s[k])
  {
    var l := s[i..];
    var r := StripRight(l);
    assert s[i..i + |r|] == l[..|r|];
    forall k | i + |r| <= k < |s| ensures IsSpace(s[k]) {
      assert s[k] == l[k - i];
    }
  }

  lemma {:induction false} StripLeftOfSpaces(w: string, s: string)
    requires forall k :: 0 <= k < |w| ==> IsSpace(w[k])
    ensures StripLeft(w + s) == StripLeft(s)
  {
    if w != [] {
      assert (w + s)[1..] == w[1..] + s;
      StripLeftOfSpaces(w[1..], s);
    } else {
      assert w + s == s;
    }
  }

  lemma {:induction false} StripRightOfSpaces(s: string, w: string)
    requires forall k :: 0 <= k < |w| ==> IsSpace(w[k])
    ensures StripRight(s + w) == StripRight(s)
  {
    if w != [] {
      assert (s + w)[..|s + w| - 1] == s + w[..|w| - 1];
      StripRightOfSpaces(s, w[..|w| - 1]);
    } else {
      assert s + w == s;
    }
  }

  lemma {:induction false} StripLeftOfAllSpaces(w: string)
    requires forall k :: 0 <= k < |w| ==> IsSpace(w[k])
    ensures StripLeft(w) == []
  {
    if w != [] {
      StripLeftOfAllSpaces(w[1..]);
    }
  }

  /** Text appended after a non-blank string survives `StripLeft`; after a blank one, blanks vanish. */
  lemma {:induction false} StripLeftAppend(s: string, w: string)
    ensures StripLeft(s) != [] ==> StripLeft(s + w) == StripLeft(s) + w
    ensures StripLeft(s) == [] && (forall k :: 0 <= k < |w| ==> IsSpace(w[k])) ==> StripLeft(s + w) == []
  {
    if s == [] {
      assert s + w == w;
      if forall k :: 0 <= k < |w| ==> IsSpace(w[k]) {
        StripLeftOfAllSpaces(w);
      }
    } else if IsSpace(s[0]) {
      assert (s + w)[1..] == s[1..] + w;
      StripLeftAppend(s[1..], w);
    }
  }

  /** A string that neither starts nor ends with whitespace is its own strip. */
  lemma StripKeeps(s: string)
    requires s != [] && !IsSpace(s[0]) && !IsSpace(s[|s| - 1])
    ensures Strip(s) == s
  {
  }

  /** Stripping twice is stripping once. */
  lemma StripIdempotent(s: string)
    ensures Strip(Strip(s)) == Strip(s)
  {
    var r := Strip(s);
    if r != [] {
      assert StripLeft(r) == r;
    }
  }

  /** `strip` only removes characters, so one absent before is absent after. */
  lemma StripKeepsAbsent(s: string, ch: char)
    requires ch !in s
    ensures ch !in Strip(s)
  {
    var i := StripSpec(s);
    assert Strip(s) == s[i..i + |Strip(s)|];
  }

  /** Whitespace around a string does not change what `strip` returns. */
  lemma StripSurrounded(w1: string, s: string, w2: string)
    requires forall k :: 0 <= k < |w1| ==> IsSpace(w1[k])
    requires forall k :: 0 <= k < |w2| ==> IsSpace(w2[k])
    ensures Strip(w1 + s + w2) == Strip(s)
  {
    assert w1 + s + w2 == w1 + (s + w2);
    StripLeftOfSpaces(w1, s + w2);
    StripLeftAppend(s, w2);
    if StripLeft(s) != [] {
      StripRightOfSpaces(StripLeft(s), w2);
    }
  }

  function UpperChar(c: char): char
  {
    if 'a' <= c <= 'z' then (c as int - 32) as char else c
  }

  function LowerChar(c: char): char
  {
    if 'A' <= c <= 'Z' then (c as int + 32) as char else c
  }

  /** `str.upper()` on the ASCII letters: no lower-case letter is left, and nothing else changes. */
  function Upper(s: string): (r: string)
    ensures |r| == |s| && forall i :: 0 <= i < |s| ==> r[i] == UpperChar(s[i])
    ensures forall i :: 0 <= i < |r| ==> !('a' <= r[i] <= 'z')
    ensures forall i :: 0 <= i < |s| && !('a' <= s[i] <= 'z') ==> r[i] == s[i]
  {
    seq(|s|, i requires 0 <= i < |s| => UpperChar(s[i]))
  }

  /** `str.lower()` on the ASCII letters: no capital is left, and nothing else changes. */
  function Lower(s: string): (r: string)
    ensures |r| == |s| && forall i :: 0 <= i < |s| ==> r[i] == LowerChar(s[i])
    ensures forall i :: 0 <= i < |r| ==> !('A' <= r[i] <= 'Z')
    ensures forall i :: 0 <= i < |s| && !('A' <= s[i] <= 'Z') ==> r[i] == s[i]
  {
    seq(|s|, i requires 0 <= i < |s| => LowerChar(s[i]))
  }

  /** Occurrences survive lower-casing. */
  lemma ContainsLower(t: string, x: string)
    requires Contains(t, x)
    ensures Contains(Lower(t), Lower(x))
  {
    var i :| 0 <= i <= |t| - |x| && OccursAt(t, x, i);
    assert Lower(t)[i..i + |x|] == Lower(x);
    assert OccursAt(Lower(t), Lower(x), i);
  }

  /** Occurrences survive upper-casing. */
  lemma ContainsUpper(t: string, x: string)
    requires Contains(t, x)
    ensures Contains(Upper(t), Upper(x))
  {
    var i :| 0 <= i <= |t| - |x| && OccursAt(t, x, i);
    assert Upper(t)[i..i + |x|] == Upper(x);
    assert OccursAt(Upper(t), Upper(x), i);
  }

  /** A string with no upper-case ASCII letter is unchanged by `Lower`. */
  lemma LowerOfLower(s: string)
    requires forall i :: 0 <= i < |s| ==> !('A' <= s[i] <= 'Z')
    ensures Lower(s) == s
  {
  }

  /** Any text obtained by `lower()` cannot contain a needle that holds an upper-case letter. */
  lemma LowerNeverContainsUpper(s: string, needle: string, k: int)
    requires 0 <= k < |needle| && 'A' <= needle[k] <= 'Z'
    ensures !Contains(Lower(s), needle)
  {
    forall i | 0 <= i <= |Lower(s)| - |needle| ensures !OccursAt(Lower(s), needle, i) {
      assert Lower(s)[i..i + |needle|][k] == Lower(s)[i + k];
    }
  }

  /** `s.replace(c, "")` for each character of `cs`. */
  function RemoveChars(s: string, cs: set<char>): (r: string)
    ensures forall i :: 0 <= i < |r| ==> r[i] !in cs
    ensures |r| <= |s|
  {
    if s == [] then []
    else if s[0] in cs then RemoveChars(s[1..], cs)
    else [s[0]] + RemoveChars(s[1..], cs)
  }

  /** Removing characters that do not occur changes nothing. */
  lemma {:induction false} RemoveCharsAbsent(s: string, cs: set<char>)
    requires forall i :: 0 <= i < |s| ==> s[i] !in cs
    ensures RemoveChars(s, cs) == s
  {
    if s != [] {
      RemoveCharsAbsent(s[1..], cs);
    }
  }

  /** Character removal works piece by piece. */
  lemma {:induction false} RemoveCharsAppend(a: string, b: string, cs: set<char>)
    ensures RemoveChars(a + b, cs) == RemoveChars(a, cs) + RemoveChars(b, cs)
  {
    if a == [] {
      assert a + b == b;
    } else {
      assert (a + b)[0] == a[0] && (a + b)[1..] == a[1..] + b;
      RemoveCharsAppend(a[1..], b, cs);
    }
  }

  /** Removal keeps only characters of the original text. */
  lemma {:induction false} RemoveCharsKeeps(s: string, cs: set<char>, c: char)
    requires c !in s
    ensures c !in RemoveChars(s, cs)
  {
    if s != [] {
      assert c !in s[1..];
      RemoveCharsKeeps(s[1..], cs, c);
    }
  }

  /** `s.replace(a, b)` for single characters. */
  function ReplaceChar(s: string, a: char, b: char): (r: string)
    ensures |r| == |s|
    ensures forall i :: 0 <= i < |s| ==> r[i] == (if s[i] == a then b else s[i])
  {
    seq(|s|, i requires 0 <= i < |s| => if s[i] == a then b else s[i])
  }

  lemma ReplaceCharAppend(x: string, y: string, a: char, b: char)
    ensures ReplaceChar(x + y, a, b) == ReplaceChar(x, a, b) + ReplaceChar(y, a, b)
  {
    assert forall i :: 0 <= i < |x + y| ==> (x + y)[i] == if i < |x| then x[i] else y[i - |x|];
  }

  /** `s.split(sep)`: the pieces between occurrences of `sep`, always at least one. */
  function Split(s: string, sep: char): (r: seq<string>)
    ensures |r| >= 1
    ensures forall p :: p in r ==> sep !in p
  {
    if sep !in s then [s]
    else
      var i := FirstIndex(s, sep);
      [s[..i]] + Split(s[i + 1..], sep)
  }

  function FirstIndex(s: string, c: char): (i: nat)
    requires c in s
    ensures i < |s| && s[i] == c && c !in s[..i]
  {
    if s[0] == c then 0 else 1 + FirstIndex(s[1..], c)
  }

  /** The first `c` is at `k` when `s[k]` is `c` and no `c` comes before. */
  lemma {:induction false} FirstIndexAt(s: string, c: char, k: nat)
    requires k < |s| && s[k] == c && c !in s[..k]
    ensures c in s && FirstIndex(s, c) == k
  {
    if k > 0 {
      assert s[..k][0] == s[0];
      assert s[1..][..k - 1] == s[..k][1..];
      FirstIndexAt(s[1..], c, k - 1);
    }
  }

  /** `sep.join(parts)`. */
  function Join(parts: seq<string>, sep: char): string
  {
    if |parts| == 0 then []
    else if |parts| == 1 then parts[0]
    else parts[0] + [sep] + Join(parts[1..], sep)
  }

  /** Joining the pieces of a split gives back the string. */
  lemma {:induction false} JoinSplit(s: string, sep: char)
    ensures Join(Split(s, sep), sep) == s
    decreases |s|
  {
    if sep in s {
      var i := FirstIndex(s, sep);
      JoinSplit(s[i + 1..], sep);
      assert s == s[..i] + [sep] + s[i + 1..];
    }
  }

  predicate IsCased(c: char)
  {
    'a' <= c <= 'z' || 'A' <= c <= 'Z'
  }

  /** `str.title()` on ASCII text: a letter that follows a letter is lowered, any other letter raised. */
  function Title(s: string): (r: string)
    ensures |r| == |s|
    ensures forall i :: 0 <= i < |s| ==>
      r[i] == (if i > 0 && IsCased(s[i - 1]) then LowerChar(s[i]) else UpperChar(s[i]))
  {
    seq(|s|, i requires 0 <= i < |s| =>
      if i > 0 && IsCased(s[i - 1]) then LowerChar(s[i]) else UpperChar(s[i]))
  }

  /** A letter is a capital once raised and never once lowered. */
  lemma CasedChar(c: char)
    requires IsCased(c)
    ensures 'A' <= UpperChar(c) <= 'Z'
    ensures !('A' <= LowerChar(c) <= 'Z')
  {
  }

  /** Title casing leaves a letter a capital exactly when it starts a word. */
  lemma TitleCapitals(s: string)
    ensures forall i :: 0 <= i < |s| && IsCased(s[i]) ==>
      ('A' <= Title(s)[i] <= 'Z' <==> i == 0 || !IsCased(s[i - 1]))
  {
    forall i | 0 <= i < |s| && IsCased(s[i])
      ensures 'A' <= Title(s)[i] <= 'Z' <==> i == 0 || !IsCased(s[i - 1])
    {
      CasedChar(s[i]);
    }
  }

  function DigitChar(d: nat): char
    requires d < 10
  {
    ('0' as int + d) as char
  }

  /** An ASCII decimal digit, 0 to 9. */
  predicate IsDigit(c: char)
  {
    '0' <= c <= '9'
  }

  /** `str(n)` for a natural number. */
  function NatToString(n: nat): (r: string)
    ensures |r| >= 1
    ensures forall i :: 0 <= i < |r| ==> '0' <= r[i] <= '9'
  {
    if n < 10 then [DigitChar(n)] else NatToString(n / 10) + [DigitChar(n % 10)]
  }

  function DigitsValue(s: string): nat
    requires forall i :: 0 <= i < |s| ==> '0' <= s[i] <= '9'
  {
    if s == [] then 0 else 10 * DigitsValue(s[..|s| - 1]) + (s[|s| - 1] as int - '0' as int)
  }

  /** Reading the decimal digits back gives the number. */
  lemma {:induction false} NatToStringValue(n: nat)
    ensures DigitsValue(NatToString(n)) == n
  {
    if n >= 10 {
      NatToStringValue(n / 10);
      var r := NatToString(n);
      assert r[..|r| - 1] == NatToString(n / 10);
    }
  }

  lemma NatToStringInjective(m: nat, n: nat)
    requires NatToString(m) == NatToString(n)
    ensures m == n
  {
    NatToStringValue(m);
    NatToStringValue(n);
  }
}
