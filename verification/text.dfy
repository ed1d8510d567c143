/**
 Python's `str.strip()`, `str.upper()` and `str.lower()` as the bot applies them to
 user input and to the cells of the table. `strip()` removes the characters Python
 calls whitespace (`str.isspace`); case mapping is restricted to ASCII letters.
 */
module Text {

  /** The characters for which Python's `str.isspace()` holds. */
  predicate IsSpace(c: char) {
    || ('\t' <= c <= '\r')
    || ('\U{1C}' <= c <= ' ')
    || c == '\U{85}' || c == '\U{A0}' || c == '\U{1680}'
    || ('\U{2000}' <= c <= '\U{200A}')
    || c == '\U{2028}' || c == '\U{2029}' || c == '\U{202F}' || c == '\U{205F}' || c == '\U{3000}'
  }

  predicate AllSpace(s: string) {
    forall i :: 0 <= i < |s| ==> IsSpace(s[i])
  }

  /** Neither starts nor ends with whitespace. */
  predicate Tight(s: string) {
    s == [] || (!IsSpace(s[0]) && !IsSpace(s[|s| - 1]))
  }

  /** `s` is `r` placed at index `k` with only whitespace on either side. */
  predicate PaddedAt(s: string, r: string, k: int) {
    && 0 <= k && k + |r| <= |s|
    && s[k..k + |r|] == r
    && (forall i :: 0 <= i < k ==> IsSpace(s[i]))
    && (forall i :: k + |r| <= i < |s| ==> IsSpace(s[i]))
  }

  /** The first index at or after `i` that does not hold whitespace (`|s|` if none). */
  function SkipSpace(s: string, i: nat): (k: nat)
    requires i <= |s|
    ensures i <= k <= |s|
    ensures forall j :: i <= j < k ==> IsSpace(s[j])
    ensures k == |s| || !IsSpace(s[k])
    decreases |s| - i
  {
    if i < |s| && IsSpace(s[i]) then SkipSpace(s, i + 1) else i
  }

  /** The end of the text before `j` once trailing whitespace is dropped, but never before `lo`. */
  function SkipSpaceBack(s: string, lo: nat, j: nat): (k: nat)
    requires lo <= j <= |s|
    ensures lo <= k <= j
    ensures forall i :: k <= i < j ==> IsSpace(s[i])
    ensures k == lo || !IsSpace(s[k - 1])
    decreases j
  {
    if j > lo && IsSpace(s[j - 1]) then SkipSpaceBack(s, lo, j - 1) else j
  }

  /** Python's `str.strip()`: the text with its surrounding whitespace removed. */
  function Strip(s: string): (r: string)
    ensures Tight(r)
    ensures exists k :: PaddedAt(s, r, k)
  {
    var lo := SkipSpace(s, 0);
    var hi := SkipSpaceBack(s, lo, |s|);
    assert PaddedAt(s, s[lo..hi], lo);
    s[lo..hi]
  }

  function UpperChar(c: char): char {
    if 'a' <= c <= 'z' then (c as int - 32) as char else c
  }

  function LowerChar(c: char): char {
    if 'A' <= c <= 'Z' then (c as int + 32) as char else c
  }

  /** Python's `str.upper()` on ASCII letters. */
  function Upper(s: string): string {
    seq(|s|, i requires 0 <= i < |s| => UpperChar(s[i]))
  }

  /** Python's `str.lower()` on ASCII letters. */
  function Lower(s: string): string {
    seq(|s|, i requires 0 <= i < |s| => LowerChar(s[i]))
  }

  /** The bot's normalisation of a message: `text.strip().upper()`. */
  function Normalize(s: string): string {
    Upper(Strip(s))
  }

  /** Whatever whitespace surrounds a tight text, stripping recovers exactly that text. */
  lemma StripExact(s: string, r: string, k: int)
    requires PaddedAt(s, r, k) && Tight(r)
    ensures Strip(s) == r
  {
    var lo := SkipSpace(s, 0);
    if r == [] {
      assert lo == |s|;
    } else {
      assert s[k] == r[0] && s[k + |r| - 1] == r[|r| - 1];
      assert lo == k;
      assert SkipSpaceBack(s, lo, |s|) == k + |r|;
    }
  }

  /** A text without surrounding whitespace is left as it is. */
  lemma StripTight(s: string)
    requires Tight(s)
    ensures Strip(s) == s
  {
    assert PaddedAt(s, s, 0);
    StripExact(s, s, 0);
  }

  /** Stripping twice is stripping once. */
  lemma StripIdempotent(s: string)
    ensures Strip(Strip(s)) == Strip(s)
  {
    StripTight(Strip(s));
  }

  /** Extra whitespace on either side does not change the stripped text. */
  lemma StripIgnoresPadding(a: string, s: string, b: string)
    requires AllSpace(a) && AllSpace(b)
    ensures Strip(a + s + b) == Strip(s)
  {
    var r := Strip(s);
    var k :| PaddedAt(s, r, k);
    PaddedAtWider(a, s, b, r, k);
    StripExact(a + s + b, r, |a| + k);
  }

  lemma PaddedAtWider(a: string, s: string, b: string, r: string, k: int)
    requires AllSpace(a) && AllSpace(b) && PaddedAt(s, r, k)
    ensures PaddedAt(a + s + b, r, |a| + k)
  {
    var t := a + s + b;
    assert forall i :: |a| <= i < |a| + |s| ==> t[i] == s[i - |a|];
    assert forall i :: |a| + |s| <= i < |t| ==> t[i] == b[i - |a| - |s|];
    assert t[|a| + k..|a| + k + |r|] == r by {
      forall j | 0 <= j < |r| ensures t[|a| + k + j] == r[j] {
        assert r[j] == s[k..k + |r|][j];
      }
    }
  }

  lemma UpperCharKeepsSpace(c: char)
    ensures IsSpace(UpperChar(c)) == IsSpace(c)
  {
  }

  /** ASCII case mapping and stripping commute, because no letter is whitespace. */
  lemma UpperStripCommute(s: string)
    ensures Upper(Strip(s)) == Strip(Upper(s))
  {
    var r := Strip(s);
    var k :| PaddedAt(s, r, k);
    var u := Upper(s);
    assert u[k..k + |r|] == Upper(r);
    forall i | 0 <= i < |u| && (i < k || k + |r| <= i) ensures IsSpace(u[i]) {
      UpperCharKeepsSpace(s[i]);
    }
    assert Tight(Upper(r)) by {
      if r != [] {
        UpperCharKeepsSpace(r[0]);
        UpperCharKeepsSpace(r[|r| - 1]);
      }
    }
    assert PaddedAt(u, Upper(r), k);
    StripExact(u, Upper(r), k);
  }

  /**
   Normalisation sees neither surrounding whitespace nor ASCII case: two messages
   that differ only in those normalise to the same text.
   */
  lemma NormalizeIgnoresCaseAndPadding(a: string, s: string, b: string, c: string, t: string, d: string)
    requires AllSpace(a) && AllSpace(b) && AllSpace(c) && AllSpace(d)
    requires Upper(s) == Upper(t)
    ensures Normalize(a + s + b) == Normalize(c + t + d)
  {
    StripIgnoresPadding(a, s, b);
    StripIgnoresPadding(c, t, d);
    UpperStripCommute(s);
    UpperStripCommute(t);
  }

  /** Normalising an already stripped message gives the same text. */
  lemma NormalizeStripped(s: string)
    ensures Normalize(Strip(s)) == Normalize(s)
  {
    StripIdempotent(s);
  }
}
