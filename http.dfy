/**
 * What the server routes share: the JSON reply (`NextResponse.json`), the
 * identity a verified token carries, and how a JSON value is passed as a
 * text parameter to the database.
 */
module Http {
  import opened Js

  /** `NextResponse.json(body, { status })`; the default status is 200. */
  datatype Reply = Reply(status: int, body: Json)

  /** `{ [key]: text }` with the given status: the one-field body every route answers with. */
  function OneField(status: int, key: string, text: string): (r: Reply)
    ensures r.status == status && r.body.JObj? && r.body.fields.Keys == {key}
    ensures r.body.fields[key] == JStr(text)
  {
    Reply(status, JObj(map[key := JStr(text)]))
  }

  /** `{ message: text }` with the given status. */
  function Message(status: int, text: string): Reply
  {
    OneField(status, "message", text)
  }

  /** `{ error: text }` with the given status. */
  function Error(status: int, text: string): Reply
  {
    OneField(status, "error", text)
  }

  /**
   * How node-postgres (`prepareValue`) passes a JSON value as the text of a
   * query parameter: `null` and a missing value are SQL NULL (None); a string
   * as it is; a number or a boolean by `toString()`; an array as a Postgres
   * array literal; an object as its `JSON.stringify` text. `stringify` gives
   * that text, since the order of an object's keys is not kept by the model.
   */
  function TextParam(v: Option<Json>, stringify: map<string, Json> -> string): (t: Option<string>)
    ensures t.None? <==> v.None? || v.value.JNull?
    ensures v.Some? && v.value.JStr? ==> t == Some(v.value.s)
    ensures v.Some? && (v.value.JNum? || v.value.JBool?) ==> t == Some(JsString(v.value))
    ensures v.Some? && v.value.JArr? ==> t == Some(ElementText(v.value, stringify))
    ensures v.Some? && v.value.JObj? ==> t == Some(stringify(v.value.fields))
  {
    match v
    case None => None
    case Some(j) =>
      match j
      case JNull => None
      case JStr(s) => Some(s)
      case JNum(_) => Some(JsString(j))
      case JBool(_) => Some(JsString(j))
      case JArr(_) => Some(ElementText(j, stringify))
      case JObj(fields) => Some(stringify(fields))
  }

  /**
   * node-postgres's `arrayString` and the element cases inside it: a nested
   * array is `{`, its elements separated by ',', then `}`; `null` is `NULL`;
   * any other value is its parameter text, double-quoted with `\` and `"`
   * escaped by a backslash.
   */
  function ElementText(j: Json, stringify: map<string, Json> -> string): (r: string)
    ensures j.JArr? ==> |r| >= 2 && r[0] == '{' && r[|r| - 1] == '}'
    ensures !j.JArr? && !j.JNull? ==> |r| >= 2 && r[0] == '"' && r[|r| - 1] == '"'
    decreases j
  {
    match j
    case JNull => "NULL"
    case JArr(items) =>
      "{" + Join(seq(|items|, i requires 0 <= i < |items| => ElementText(items[i], stringify))) + "}"
    case JStr(s) => Quote(s)
    case JObj(fields) => Quote(stringify(fields))
    case _ => Quote(JsString(j))
  }

  /** `parts.join(',')`. */
  function Join(parts: seq<string>): string
  {
    if parts == [] then "" else parts[0] + (if |parts| == 1 then "" else "," + Join(parts[1..]))
  }

  /** `escapeElement`: `"`, the text with `\` doubled and `"` preceded by `\`, then `"`. */
  function Quote(s: string): (r: string)
    ensures |r| >= 2 && r[0] == '"' && r[|r| - 1] == '"'
    ensures r[1..|r| - 1] == Escape(s)
  {
    "\"" + Escape(s) + "\""
  }

  function Escape(s: string): string
  {
    if s == [] then []
    else (if s[0] == '\\' || s[0] == '"' then ['\\', s[0]] else [s[0]]) + Escape(s[1..])
  }

  /** How Postgres reads the inside of a quoted array element: a backslash takes the next character literally. */
  function Unescape(t: string): string
    decreases |t|
  {
    if t == [] then []
    else if t[0] == '\\' && |t| >= 2 then [t[1]] + Unescape(t[2..])
    else [t[0]] + Unescape(t[1..])
  }

  /** Postgres reads every quoted element back as the text node-postgres was given. */
  lemma {:induction false} UnescapeEscape(s: string)
    ensures Unescape(Escape(s)) == s
    decreases |s|
  {
    if s != [] {
      UnescapeEscape(s[1..]);
      var e := Escape(s);
      if s[0] == '\\' || s[0] == '"' {
        assert e == ['\\', s[0]] + Escape(s[1..]);
        assert e[2..] == Escape(s[1..]);
      } else {
        assert e == [s[0]] + Escape(s[1..]);
        assert e[1..] == Escape(s[1..]);
      }
      assert s == [s[0]] + s[1..];
    }
  }

  /** An array holding one string binds as that string, quoted, between braces. */
  lemma OneStringArray(text: string, stringify: map<string, Json> -> string)
    ensures TextParam(Some(JArr([JStr(text)])), stringify) == Some("{" + Quote(text) + "}")
  {
    var items := [JStr(text)];
    var parts := seq(|items|, i requires 0 <= i < |items| => ElementText(items[i], stringify));
    assert parts == [Quote(text)];
    assert Join(parts) == Quote(text);
  }

  /** `["a"]` binds as the array literal `{"a"}`, not as NULL. */
  lemma ArrayOfOneString(stringify: map<string, Json> -> string)
    ensures TextParam(Some(JArr([JStr("a")])), stringify) == Some("{\"a\"}")
  {
    OneStringArray("a", stringify);
    assert Quote("a") == "\"a\"" by {
      assert Escape("a") == "a";
    }
    assert "{" + "\"a\"" + "}" == "{\"a\"}";
  }

  /** The stored form of a password: `hash(password, cost)`; bcrypt itself is not modelled. */
  datatype PasswordHash = Bcrypt(password: string, cost: nat)
}
