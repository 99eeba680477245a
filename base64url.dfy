/**
 * The base64url-to-base64 normalisation shared by the push key conversion and
 * the token payload reader: base64url (section 5 of RFC 4648) writes '-' and
 * '_' where base64 (section 4 of RFC 4648) writes '+' and '/', and may drop
 * the '=' padding that section 3.2 of RFC 4648 asks for.
 */
module Base64Url {

  /** The 64 characters shared by both alphabets: letters and digits. */
  predicate IsAlphaNum(c: char)
  {
    'A' <= c <= 'Z' || 'a' <= c <= 'z' || '0' <= c <= '9'
  }

  /** Section 5 of RFC 4648: the URL- and filename-safe alphabet. */
  predicate IsUrlChar(c: char)
  {
    IsAlphaNum(c) || c == '-' || c == '_'
  }

  /** Section 4 of RFC 4648: the standard alphabet, with the pad character '='. */
  predicate IsStandardChar(c: char)
  {
    IsAlphaNum(c) || c == '+' || c == '/' || c == '='
  }

  /** How many '=' are appended: `(4 - len % 4) % 4`. */
  function PaddingLength(len: nat): (p: nat)
    ensures p <= 3
    ensures (len + p) % 4 == 0
    ensures p == 0 <==> len % 4 == 0
  {
    (4 - len % 4) % 4
  }

  function Repeat(c: char, n: nat): (r: string)
    ensures |r| == n
    ensures forall i :: 0 <= i < n ==> r[i] == c
  {
    if n == 0 then [] else [c] + Repeat(c, n - 1)
  }

  /** `s + '='.repeat(padding)`. */
  function Padded(s: string): (r: string)
    ensures |r| % 4 == 0 && |s| <= |r| < |s| + 4
    ensures r[..|s|] == s
    ensures forall i :: |s| <= i < |r| ==> r[i] == '='
  {
    s + Repeat('=', PaddingLength(|s|))
  }

  /** The effect of `.replace(/-/g, '+').replace(/_/g, '/')` on one character. */
  function StandardChar(c: char): char
  {
    if c == '-' then '+' else if c == '_' then '/' else c
  }

  /** `.replace(/-/g, '+').replace(/_/g, '/')`, character by character from the left. */
  function ToStandardAlphabet(s: string): (r: string)
    ensures |r| == |s|
    ensures forall i :: 0 <= i < |s| ==> r[i] == StandardChar(s[i])
    ensures '-' !in r && '_' !in r
  {
    if s == [] then [] else [StandardChar(s[0])] + ToStandardAlphabet(s[1..])
  }

  /** The reverse mapping, from the standard alphabet to the URL-safe one. */
  function UrlChar(c: char): char
  {
    if c == '+' then '-' else if c == '/' then '_' else c
  }

  function ToUrlAlphabet(s: string): (r: string)
    ensures |r| == |s|
    ensures forall i :: 0 <= i < |s| ==> r[i] == UrlChar(s[i])
  {
    if s == [] then [] else [UrlChar(s[0])] + ToUrlAlphabet(s[1..])
  }

  /** A padded base64url string becomes a string over the standard base64 alphabet of a length divisible by 4. */
  lemma UrlSafeBecomesStandard(s: string)
    requires forall i :: 0 <= i < |s| ==> IsUrlChar(s[i])
    ensures var r := ToStandardAlphabet(Padded(s));
      |r| % 4 == 0 && forall i :: 0 <= i < |r| ==> IsStandardChar(r[i])
  {
    var p := Padded(s);
    var r := ToStandardAlphabet(p);
    forall i | 0 <= i < |r| ensures IsStandardChar(r[i]) {
      if i < |s| {
        assert p[i] == p[..|s|][i] == s[i];
      }
    }
  }

  /** Normalising a base64url string and mapping back to the URL-safe alphabet restores it. */
  lemma {:induction false} UrlStandardRoundTrip(s: string)
    requires '+' !in s && '/' !in s
    ensures ToUrlAlphabet(ToStandardAlphabet(s)) == s
  {
    var r := ToUrlAlphabet(ToStandardAlphabet(s));
    assert |r| == |s|;
    forall i | 0 <= i < |s| ensures r[i] == s[i] {
      assert s[i] in s;
    }
  }

  /** Padding never changes what the alphabet mapping does to the characters it adds. */
  lemma PaddingSurvivesNormalisation(s: string)
    ensures var r := ToStandardAlphabet(Padded(s));
      r[..|s|] == ToStandardAlphabet(s) && forall i :: |s| <= i < |r| ==> r[i] == '='
  {
    var p := Padded(s);
    var r := ToStandardAlphabet(p);
    assert forall i :: 0 <= i < |s| ==> p[i] == s[i] by {
      forall i | 0 <= i < |s| ensures p[i] == s[i] {
        assert p[..|s|][i] == p[i];
      }
    }
  }
}
