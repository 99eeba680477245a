/**
 * `decodeToken` from the client's user provider: reads the user claims out of
 * the payload of a JSON Web Token without checking its signature. The payload
 * is the second '.'-separated segment of the compact serialization (section
 * 7.1 of RFC 7515). `atob`, `decodeURIComponent` and `JSON.parse` are
 * parameters; each yields None where it would throw, and every failure makes
 * the function answer null (None).
 */
module UserProvider {
  import opened Js
  import opened Base64Url

  /** `s.split(sep)`: the maximal pieces between separators, including empty ones. */
  function Split(s: string, sep: char): (parts: seq<string>)
    ensures |parts| >= 1
    ensures forall i :: 0 <= i < |parts| ==> sep !in parts[i]
    decreases |s|
  {
    if s == [] then [""]
    else if s[0] == sep then [""] + Split(s[1..], sep)
    else
      var rest := Split(s[1..], sep);
      [[s[0]] + rest[0]] + rest[1..]
  }

  /** `parts.join(sep)`. */
  function Join(parts: seq<string>, sep: char): string
    requires |parts| >= 1
    decreases |parts|
  {
    if |parts| == 1 then parts[0] else parts[0] + [sep] + Join(parts[1..], sep)
  }

  /** Splitting loses nothing: joining the pieces again gives back the string. */
  lemma {:induction false} JoinSplit(s: string, sep: char)
    ensures Join(Split(s, sep), sep) == s
    decreases |s|
  {
    if s != [] {
      JoinSplit(s[1..], sep);
      var rest := Split(s[1..], sep);
      if s[0] == sep {
        assert Split(s, sep)[1..] == rest;
      } else {
        var parts := Split(s, sep);
        if |rest| == 1 {
          assert parts == [[s[0]] + rest[0]];
        } else {
          assert parts[1..] == rest[1..];
          assert Join(rest, sep) == rest[0] + [sep] + Join(rest[1..], sep);
        }
      }
    }
  }

  lemma {:induction false} SplitAppend(a: string, sep: char, b: string)
    requires sep !in a
    ensures Split(a + [sep] + b, sep) == [a] + Split(b, sep)
    decreases |a|
  {
    var s := a + [sep] + b;
    if a == [] {
      assert s == [sep] + b;
      assert s[1..] == b;
    } else {
      assert s[1..] == a[1..] + [sep] + b;
      assert a[0] in a;
      assert forall c :: c in a[1..] ==> c in a;
      SplitAppend(a[1..], sep, b);
      assert a == [a[0]] + a[1..];
    }
  }

  lemma {:induction false} SplitWithoutSeparator(a: string, sep: char)
    requires sep !in a
    ensures Split(a, sep) == [a]
    decreases |a|
  {
    if a != [] {
      assert a[0] in a;
      assert forall c :: c in a[1..] ==> c in a;
      SplitWithoutSeparator(a[1..], sep);
      assert a == [a[0]] + a[1..];
    }
  }

  /** `token.split('.')[1]`, where `undefined` and "" both count as missing. */
  function PayloadSegment(token: string): (r: Option<string>)
    ensures r.Some? ==> r.value != "" && '.' !in r.value
    ensures r.Some? ==> |Split(token, '.')| >= 2 && Split(token, '.')[1] == r.value
  {
    var parts := Split(token, '.');
    if |parts| < 2 || parts[1] == "" then None else Some(parts[1])
  }

  /** In `header.payload.signature` (or `header.payload`) the payload segment is found. */
  lemma PayloadOfCompactToken(header: string, payload: string, signature: string)
    requires '.' !in header && '.' !in payload && payload != ""
    ensures PayloadSegment(header + "." + payload) == Some(payload)
    ensures PayloadSegment(header + "." + payload + "." + signature) == Some(payload)
  {
    SplitWithoutSeparator(payload, '.');
    SplitAppend(header, '.', payload);
    SplitAppend(payload, '.', signature);
    SplitAppend(header, '.', payload + "." + signature);
    assert header + "." + payload + "." + signature == header + ['.'] + (payload + ['.'] + signature);
  }

  /** A token without a '.' has no payload segment. */
  lemma NoDotNoPayload(token: string)
    requires '.' !in token
    ensures PayloadSegment(token).None?
  {
    SplitWithoutSeparator(token, '.');
  }

  const HexDigits := "0123456789abcdef"

  /** `n.toString(16)`: lower-case hexadecimal digits, most significant first. */
  function Base16(n: nat): (s: string)
    ensures |s| >= 1 && s[|s| - 1] == HexDigits[n % 16]
    decreases n
  {
    if n < 16 then [HexDigits[n]] else Base16(n / 16) + [HexDigits[n % 16]]
  }

  /** Two lower-case hexadecimal digits of a byte. */
  function Hex2(b: nat): (s: string)
    requires b < 256
    ensures |s| == 2
  {
    [HexDigits[b / 16], HexDigits[b % 16]]
  }

  /** `"%" + ("00" + c.charCodeAt(0).toString(16)).slice(-2)`. */
  function PercentByte(c: char): string
  {
    var padded := "00" + Base16(c as int);
    "%" + padded[|padded| - 2..]
  }

  /** Each character becomes '%' and the two hex digits of its code modulo 256. */
  lemma PercentByteIsHex2(c: char)
    ensures PercentByte(c) == "%" + Hex2((c as int) % 256)
  {
    var n := c as int;
    var padded := "00" + Base16(n);
    var h := Hex2(n % 256);
    if n < 16 {
      assert padded == "00" + [HexDigits[n]];
      assert n % 256 == n && n / 16 == 0;
    } else {
      var hi := Base16(n / 16);
      assert padded == "00" + hi + [HexDigits[n % 16]];
      assert padded[|padded| - 2..] == [hi[|hi| - 1], HexDigits[n % 16]];
      ByteDigits(n);
    }
  }

  lemma ByteDigits(n: nat)
    ensures (n % 256) / 16 == (n / 16) % 16
    ensures (n % 256) % 16 == n % 16
  {
    var q := n / 256;
    var r := n % 256;
    assert n == 256 * q + r;
    assert n / 16 == 16 * q + r / 16;
    assert n % 16 == r % 16;
  }

  /** The argument to `decodeURIComponent`: every character percent-escaped. */
  function PercentEscape(raw: string): (r: string)
    ensures |r| == 3 * |raw|
  {
    if raw == [] then [] else PercentByte(raw[0]) + PercentEscape(raw[1..])
  }

  /** The three characters written for character `i` of the decoded payload. */
  lemma {:induction false} PercentEscapeAt(raw: string, i: nat)
    requires i < |raw|
    ensures PercentEscape(raw)[3 * i..3 * i + 3] == "%" + Hex2((raw[i] as int) % 256)
    decreases i
  {
    PercentByteIsHex2(raw[0]);
    if i > 0 {
      PercentEscapeAt(raw[1..], i - 1);
      var tail := PercentEscape(raw[1..]);
      assert PercentEscape(raw)[3..] == tail;
      assert PercentEscape(raw)[3 * i..3 * i + 3] == tail[3 * (i - 1)..3 * (i - 1) + 3];
    }
  }

  function HexValue(c: char): nat
  {
    if '0' <= c <= '9' then c as int - '0' as int
    else if 'a' <= c <= 'f' then c as int - 'a' as int + 10
    else 0
  }

  /** Reads `%hh` triples back as byte values: the inverse of the escaping. */
  function Unescape(s: string): seq<nat>
    decreases |s|
  {
    if |s| < 3 then [] else [16 * HexValue(s[1]) + HexValue(s[2])] + Unescape(s[3..])
  }

  function Bytes(raw: string): (r: seq<nat>)
    ensures |r| == |raw|
  {
    if raw == [] then [] else [(raw[0] as int) % 256] + Bytes(raw[1..])
  }

  /** The escaping is lossless: every byte of the decoded payload can be read back from it. */
  lemma {:induction false} UnescapeEscape(raw: string)
    ensures Unescape(PercentEscape(raw)) == Bytes(raw)
    decreases |raw|
  {
    if raw != [] {
      var b := (raw[0] as int) % 256;
      PercentByteIsHex2(raw[0]);
      var e := PercentEscape(raw);
      assert e[..3] == "%" + Hex2(b);
      assert e[3..] == PercentEscape(raw[1..]);
      assert HexValue(HexDigits[b / 16]) == b / 16;
      assert HexValue(HexDigits[b % 16]) == b % 16;
      UnescapeEscape(raw[1..]);
    }
  }

  /** The claims the client keeps. */
  datatype User = User(userId: Json, username: Json)

  /** The parsed payload: segment, alphabet mapping, `atob`, escaping, `decodeURIComponent`, `JSON.parse`. */
  function Payload(
    token: string,
    atob: string -> Option<string>,
    decodeUri: string -> Option<string>,
    parse: string -> Option<Json>): Option<Json>
  {
    match PayloadSegment(token)
    case None => None
    case Some(base64Url) =>
      match atob(ToStandardAlphabet(base64Url))
      case None => None
      case Some(raw) =>
        match decodeUri(PercentEscape(raw))
        case None => None
        case Some(jsonPayload) => parse(jsonPayload)
  }

  /**
   * `decodeToken`: a user exactly when the payload is an object whose `userId`
   * and `username` are both truthy, carrying just those two claims. Reading a
   * claim of a parsed `null` throws, which is caught, so that is null as well.
   */
  function DecodeToken(
    token: string,
    atob: string -> Option<string>,
    decodeUri: string -> Option<string>,
    parse: string -> Option<Json>): (u: Option<User>)
    ensures PayloadSegment(token).None? ==> u.None?
    ensures u.Some? <==>
      var p := Payload(token, atob, decodeUri, parse);
      p.Some? && TruthyField(Field(p.value, "userId")) && TruthyField(Field(p.value, "username"))
    ensures u.Some? ==>
      var fields := Payload(token, atob, decodeUri, parse).value.fields;
      u.value == User(fields["userId"], fields["username"])
  {
    match Payload(token, atob, decodeUri, parse)
    case None => None
    case Some(decoded) =>
      if decoded.JNull? then None
      else if TruthyField(Field(decoded, "userId")) && TruthyField(Field(decoded, "username")) then
        Some(User(decoded.fields["userId"], decoded.fields["username"]))
      else None
  }

  /** What `atob` is given is the payload segment with '-' and '_' mapped to '+' and '/'. */
  lemma DecodeTokenReadsMappedSegment(
    token: string,
    atob: string -> Option<string>,
    decodeUri: string -> Option<string>,
    parse: string -> Option<Json>)
    requires DecodeToken(token, atob, decodeUri, parse).Some?
    ensures PayloadSegment(token).Some?
    ensures var mapped := ToStandardAlphabet(PayloadSegment(token).value);
      && '-' !in mapped && '_' !in mapped
      && atob(mapped).Some?
      && decodeUri(PercentEscape(atob(mapped).value)).Some?
  {
  }
}
