/**
 * The JavaScript string operations the backend relies on, over Dafny strings:
 * lower-casing, `includes`, `startsWith`, `substring(0, n)`, `trim`, global
 * regular-expression match counting and the `\s` character class.
 */
module Text {

  /** The `\s` class of JavaScript regular expressions; `String.prototype.trim` strips the same set. */
  predicate IsSpace(c: char) {
    c == '\t' || c == '\n' || c == '\U{000B}' || c == '\U{000C}' || c == '\r' || c == ' '
    || c == '\U{00A0}' || c == '\U{1680}' || ('\U{2000}' <= c <= '\U{200A}')
    || c == '\U{2028}' || c == '\U{2029}' || c == '\U{202F}' || c == '\U{205F}'
    || c == '\U{3000}' || c == '\U{FEFF}'
  }

  predicate IsAsciiUpper(c: char) {
    'A' <= c <= 'Z'
  }

  predicate IsAsciiLower(c: char) {
    'a' <= c <= 'z'
  }

  predicate IsDigit(c: char) {
    '0' <= c <= '9'
  }

  /** `[a-z0-9]` */
  predicate IsSlugAlnum(c: char) {
    IsAsciiLower(c) || IsDigit(c)
  }

  /** `[a-z0-9-]` */
  predicate IsSlugChar(c: char) {
    IsSlugAlnum(c) || c == '-'
  }

  /**
   * `toLowerCase` of one character. ASCII capitals map to ASCII small letters;
   * the two non-ASCII characters whose lower case contains an ASCII letter
   * (KELVIN SIGN and LATIN CAPITAL LETTER I WITH DOT ABOVE) are mapped as
   * JavaScript maps them; every other character is kept.
   */
  function LowerChar(c: char): (r: string)
    ensures forall i | 0 <= i < |r| :: !IsAsciiUpper(r[i])
    ensures !IsAsciiUpper(c) && c != '\U{212A}' && c != '\U{0130}' ==> r == [c]
  {
    if IsAsciiUpper(c) then [(c as int + 32) as char]
    else if c == '\U{212A}' then "k"
    else if c == '\U{0130}' then "i\U{0307}"
    else [c]
  }

  /** `s.toLowerCase()` */
  function ToLower(s: string): (r: string)
  {
    if s == [] then [] else LowerChar(s[0]) + ToLower(s[1..])
  }

  /** A lower-cased string holds no ASCII capital, so `/[A-Z]/g` finds nothing in it. */
  lemma {:induction false} ToLowerHasNoUpper(s: string)
    ensures forall i | 0 <= i < |ToLower(s)| :: !IsAsciiUpper(ToLower(s)[i])
  {
    if s != [] {
      ToLowerHasNoUpper(s[1..]);
      var head, tail := LowerChar(s[0]), ToLower(s[1..]);
      assert ToLower(s) == head + tail;
      forall i | 0 <= i < |head + tail| ensures !IsAsciiUpper((head + tail)[i]) {
        if i >= |head| {
          assert (head + tail)[i] == tail[i - |head|];
        }
      }
    }
  }

  /** Lower-casing a string that has no capitals changes nothing. */
  lemma {:induction false} ToLowerOfLower(s: string)
    requires forall i | 0 <= i < |s| :: !IsAsciiUpper(s[i]) && s[i] != '\U{212A}' && s[i] != '\U{0130}'
    ensures ToLower(s) == s
  {
    if s != [] {
      ToLowerOfLower(s[1..]);
      assert ToLower(s) == [s[0]] + s[1..];
    }
  }

  /** `s.startsWith(p)` */
  predicate StartsWith(s: string, p: string) {
    |p| <= |s| && s[..|p|] == p
  }

  /** `s.includes(sub)` */
  predicate Contains(s: string, sub: string)
    decreases |s|
  {
    StartsWith(s, sub) || (s != [] && Contains(s[1..], sub))
  }

  /** An occurrence at a known position is enough for `includes`. */
  lemma {:induction false} ContainsAt(s: string, sub: string, i: nat)
    requires i + |sub| <= |s| && s[i..i + |sub|] == sub
    ensures Contains(s, sub)
  {
    if i == 0 {
      assert s[..|sub|] == sub;
    } else {
      assert s[1..][i - 1..i - 1 + |sub|] == s[i..i + |sub|];
      ContainsAt(s[1..], sub, i - 1);
    }
  }

  /** What `includes` finds in a string it also finds in any string that ends with it. */
  lemma {:induction false} ContainsInSuffix(prefix: string, s: string, sub: string)
    requires Contains(s, sub)
    ensures Contains(prefix + s, sub)
    decreases |s|
  {
    if StartsWith(s, sub) {
      assert (prefix + s)[|prefix|..|prefix| + |sub|] == s[..|sub|];
      ContainsAt(prefix + s, sub, |prefix|);
    } else {
      assert s != [] && Contains(s[1..], sub);
      ContainsInSuffix(prefix + [s[0]], s[1..], sub);
      assert prefix + [s[0]] + s[1..] == prefix + s;
    }
  }

  /**
   * `(s.match(/pat/g) || []).length`: the number of non-overlapping matches
   * found scanning from the left, as the global flag does.
   */
  function CountMatches(s: string, pat: string): (n: nat)
    requires |pat| > 0
    ensures n * |pat| <= |s|
    decreases |s|
  {
    if |s| < |pat| then 0
    else if s[..|pat|] == pat then 1 + CountMatches(s[|pat|..], pat)
    else CountMatches(s[1..], pat)
  }

  /** `(s.match(/[A-Z]/g) || []).length` */
  function CountUpper(s: string): (n: nat)
    ensures n <= |s|
  {
    if s == [] then 0 else (if IsAsciiUpper(s[0]) then 1 else 0) + CountUpper(s[1..])
  }

  /** A string without capitals has an upper-case count of zero. */
  lemma {:induction false} CountUpperNone(s: string)
    requires forall i | 0 <= i < |s| :: !IsAsciiUpper(s[i])
    ensures CountUpper(s) == 0
  {
    if s != [] {
      CountUpperNone(s[1..]);
    }
  }

  /** `s.substring(0, n)` for a non-negative `n`. */
  function Prefix(s: string, n: nat): (r: string)
    ensures |r| <= n && |r| <= |s|
    ensures r == s[..|r|]
    ensures |s| <= n ==> r == s
  {
    if |s| <= n then s else s[..n]
  }

  function TrimStart(s: string): (r: string)
    ensures |r| <= |s| && r == s[|s| - |r|..]
    ensures r == [] || !IsSpace(r[0])
  {
    if s != [] && IsSpace(s[0]) then TrimStart(s[1..]) else s
  }

  function TrimEnd(s: string): (r: string)
    ensures |r| <= |s| && r == s[..|r|]
    ensures r == [] || !IsSpace(r[|r| - 1])
  {
    if s != [] && IsSpace(s[|s| - 1]) then TrimEnd(s[..|s| - 1]) else s
  }

  /** `s.trim()` */
  function Trim(s: string): string {
    TrimEnd(TrimStart(s))
  }

  /** On a string that does not start with white space, `trim` only trims the end. */
  lemma TrimWithoutLeadingSpace(s: string)
    requires s == [] || !IsSpace(s[0])
    ensures Trim(s) == TrimEnd(s)
  {
  }

  /** The `lowercase` and `trim` setters of an email path, which Mongoose also applies to query values. */
  function NormalizeEmail(email: string): string {
    Trim(ToLower(email))
  }

  function Min(a: nat, b: nat): (m: nat)
    ensures m <= a && m <= b && (m == a || m == b)
  {
    if a <= b then a else b
  }

  predicate NoSpace(s: string) {
    forall i | 0 <= i < |s| :: !IsSpace(s[i])
  }

  /** `trim` leaves a string without white space as it is. */
  lemma TrimNoSpace(s: string)
    requires NoSpace(s)
    ensures Trim(s) == s
  {
  }

  /** `s.replace(/[^class]/g, '')`: keep the characters that satisfy `keep`. */
  function Keep(s: string, keep: char -> bool): (r: string)
    ensures |r| <= |s|
    ensures forall i | 0 <= i < |r| :: keep(r[i]) && r[i] in s
    ensures (forall i | 0 <= i < |s| :: keep(s[i])) ==> r == s
  {
    if s == [] then []
    else (if keep(s[0]) then [s[0]] else []) + Keep(s[1..], keep)
  }

  /** Drop the leading run of characters of the class `p`. */
  function SkipRun(s: string, p: char -> bool): (r: string)
    ensures |r| <= |s| && r == s[|s| - |r|..]
    ensures r == [] || !p(r[0])
  {
    if s != [] && p(s[0]) then SkipRun(s[1..], p) else s
  }

  /** `s.replace(/[class]+/g, c)`: every maximal run of characters of the class `p` becomes the one character `c`. */
  function ReplaceRuns(s: string, p: char -> bool, c: char): (r: string)
    ensures r == [] <==> s == []
    ensures s != [] && !p(s[0]) ==> r[0] == s[0]
    ensures s != [] && p(s[0]) ==> r[0] == c
    ensures forall i | 0 <= i < |r| :: r[i] == c || (r[i] in s && !p(r[i]))
    ensures p(c) ==> forall i | 0 <= i < |r| - 1 :: !(r[i] == c && r[i + 1] == c)
    decreases |s|
  {
    if s == [] then []
    else if p(s[0]) then [c] + ReplaceRuns(SkipRun(s, p), p, c)
    else [s[0]] + ReplaceRuns(s[1..], p, c)
  }

  /** A string without characters of the class is left as it is by the replacement. */
  lemma {:induction false} ReplaceRunsNone(s: string, p: char -> bool, c: char)
    requires forall i | 0 <= i < |s| :: !p(s[i])
    ensures ReplaceRuns(s, p, c) == s
    decreases |s|
  {
    if s != [] {
      ReplaceRunsNone(s[1..], p, c);
    }
  }

  /** No two neighbouring characters are both `c`. */
  predicate NoDouble(s: string, c: char) {
    forall i | 0 <= i < |s| - 1 :: !(s[i] == c && s[i + 1] == c)
  }

  /**
   * A string whose only characters of the class are isolated copies of `c`
   * itself is left as it is by the replacement.
   */
  lemma {:induction false} ReplaceRunsFixpoint(s: string, p: char -> bool, c: char)
    requires p(c)
    requires forall i | 0 <= i < |s| :: p(s[i]) ==> s[i] == c
    requires NoDouble(s, c)
    ensures ReplaceRuns(s, p, c) == s
    decreases |s|
  {
    if s != [] {
      if p(s[0]) {
        assert SkipRun(s[1..], p) == s[1..] by {
          if |s| > 1 {
            assert !(s[0] == c && s[1] == c);
          }
        }
        assert SkipRun(s, p) == s[1..];
      }
      ReplaceRunsFixpoint(s[1..], p, c);
    }
  }
}
