/** String primitives the tenant routes rely on: JavaScript's notion of white
    space (shared by `String.prototype.trim` and the regular-expression class
    `\s`), trimming, UTF-16 length, the e-mail pattern
    `^[^\s@]+@[^\s@]+\.[^\s@]+$`, lower-casing and substring search. */
module Text {

  import opened Prelude

  /** The characters of ECMAScript's WhiteSpace and LineTerminator productions. */
  predicate IsSpace(c: char)
  {
    || c == ' ' || c == '\t' || c == '\n' || c == '\r'
    || c == '\U{000B}' || c == '\U{000C}' || c == '\U{00A0}' || c == '\U{1680}'
    || ('\U{2000}' <= c <= '\U{200A}')
    || c == '\U{2028}' || c == '\U{2029}' || c == '\U{202F}' || c == '\U{205F}'
    || c == '\U{3000}' || c == '\U{FEFF}'
  }

  /** The input without its leading white space. */
  function TrimStart(s: string): (r: string)
    ensures |r| <= |s| && r == s[|s| - |r|..]
    ensures forall i :: 0 <= i < |s| - |r| ==> IsSpace(s[i])
    ensures r == [] || !IsSpace(r[0])
    decreases |s|
  {
    if |s| > 0 && IsSpace(s[0]) then TrimStart(s[1..]) else s
  }

  /** The input without its trailing white space. */
  function TrimEnd(s: string): (r: string)
    ensures |r| <= |s| && r == s[..|r|]
    ensures forall i :: |r| <= i < |s| ==> IsSpace(s[i])
    ensures r == [] || !IsSpace(r[|r| - 1])
    decreases |s|
  {
    if |s| > 0 && IsSpace(s[|s| - 1]) then TrimEnd(s[..|s| - 1]) else s
  }

  /** `String(x).trim()`: the infix left after cutting the leading and the
      trailing white space; it neither starts nor ends with white space. */
  function Trim(s: string): (r: string)
    ensures var k := |s| - |TrimStart(s)|;
            && k + |r| <= |s| && r == s[k..k + |r|]
            && (forall i :: 0 <= i < k ==> IsSpace(s[i]))
            && (forall i :: k + |r| <= i < |s| ==> IsSpace(s[i]))
    ensures r == [] || (!IsSpace(r[0]) && !IsSpace(r[|r| - 1]))
  {
    TrimEnd(TrimStart(s))
  }

  /** `str.length`: the number of UTF-16 code units, two for a character outside the Basic Multilingual Plane. */
  function Utf16Length(s: string): (n: nat)
    ensures |s| <= n <= 2 * |s|
  {
    if s == [] then 0
    else (if s[0] as int > 0xFFFF then 2 else 1) + Utf16Length(s[1..])
  }

  /** A run matched by `[^\s@]+`: non-empty, no white space, no '@'. */
  predicate EmailRun(s: string)
  {
    |s| > 0 && forall i :: 0 <= i < |s| ==> !IsSpace(s[i]) && s[i] != '@'
  }

  /** The regular expression `^[^\s@]+@[^\s@]+\.[^\s@]+$`, read literally:
      the text splits into run '@' run '.' run. */
  ghost predicate MatchesEmailPattern(s: string)
  {
    exists a, d :: 0 < a < d < |s| - 1 && s[a] == '@' && s[d] == '.'
                   && EmailRun(s[..a]) && EmailRun(s[a + 1..d]) && EmailRun(s[d + 1..])
  }

  /** Index of the first occurrence of `c`, if any. */
  function IndexOf(s: string, c: char): (r: Option<nat>)
    ensures r.None? ==> forall i :: 0 <= i < |s| ==> s[i] != c
    ensures r.Some? ==> r.value < |s| && s[r.value] == c
                        && forall i :: 0 <= i < r.value ==> s[i] != c
  {
    if s == [] then None
    else if s[0] == c then Some(0)
    else match IndexOf(s[1..], c)
         case None => None
         case Some(i) => Some(i + 1)
  }

  /** The test the handler runs with `emailRegex.test(trimmed)`, as a scan:
      no white space, a first '@' that is not the first character, no second
      '@', and a '.' strictly inside the part after the '@'. */
  predicate EmailOk(s: string)
  {
    && (forall i :: 0 <= i < |s| ==> !IsSpace(s[i]))
    && match IndexOf(s, '@')
       case None => false
       case Some(a) =>
         var d := s[a + 1..];
         && a > 0
         && (forall i :: 0 <= i < |d| ==> d[i] != '@')
         && |d| >= 3
         && '.' in d[1..|d| - 1]
  }

  /** The scan accepts exactly the strings the regular expression matches. */
  lemma EmailOkIffPattern(s: string)
    ensures EmailOk(s) <==> MatchesEmailPattern(s)
  {
    if EmailOk(s) {
      ScanImpliesPattern(s);
    }
    if MatchesEmailPattern(s) {
      var a, d :| 0 < a < d < |s| - 1 && s[a] == '@' && s[d] == '.'
                  && EmailRun(s[..a]) && EmailRun(s[a + 1..d]) && EmailRun(s[d + 1..]);
      PatternImpliesScan(s, a, d);
    }
  }

  lemma ScanImpliesPattern(s: string)
    requires EmailOk(s)
    ensures MatchesEmailPattern(s)
  {
    var a := IndexOf(s, '@').value;
    var dpart := s[a + 1..];
    forall m | a < m < |s| ensures s[m] != '@' {
      assert s[m] == dpart[m - a - 1];
    }
    var inner := dpart[1..|dpart| - 1];
    var j :| 0 <= j < |inner| && inner[j] == '.';
    var d := a + 2 + j;
    assert s[d] == inner[j];
    assert EmailRun(s[..a]);
    assert EmailRun(s[a + 1..d]);
    assert EmailRun(s[d + 1..]);
  }

  lemma PatternImpliesScan(s: string, a: nat, d: nat)
    requires 0 < a < d < |s| - 1 && s[a] == '@' && s[d] == '.'
    requires EmailRun(s[..a]) && EmailRun(s[a + 1..d]) && EmailRun(s[d + 1..])
    ensures EmailOk(s)
  {
    forall i | 0 <= i < |s| ensures !IsSpace(s[i]) && (i != a ==> s[i] != '@') {
      if i < a {
        assert s[i] == s[..a][i];
      } else if a < i < d {
        assert s[i] == s[a + 1..d][i - a - 1];
      } else if d < i {
        assert s[i] == s[d + 1..][i - d - 1];
      }
    }
    assert IndexOf(s, '@') == Some(a);
    var dpart := s[a + 1..];
    assert dpart[1..|dpart| - 1][d - a - 2] == s[d];
  }

  /** A phone number the profile update accepts: 1 to 32 UTF-16 code units once trimmed. */
  predicate PhoneOk(phone: string)
  {
    var t := Trim(phone);
    1 <= Utf16Length(t) <= 32
  }

  /** `toLowerCase()` / SQL `lower()` on ASCII letters; other characters are kept. */
  function LowerChar(c: char): (r: char)
    ensures 'A' <= c <= 'Z' ==> r as int == c as int + 32
    ensures !('A' <= c <= 'Z') ==> r == c
  {
    if 'A' <= c <= 'Z' then (c as int + 32) as char else c
  }

  function Lower(s: string): (r: string)
    ensures |r| == |s| && forall i :: 0 <= i < |s| ==> r[i] == LowerChar(s[i])
  {
    seq(|s|, i requires 0 <= i < |s| => LowerChar(s[i]))
  }

  /** `pat` occurs in `text` as a contiguous infix. */
  predicate Contains(text: string, pat: string)
  {
    exists i | 0 <= i <= |text| - |pat| :: OccursAt(text, pat, i)
  }

  predicate OccursAt(text: string, pat: string, i: nat)
    requires i + |pat| <= |text|
  {
    text[i..i + |pat|] == pat
  }
}
