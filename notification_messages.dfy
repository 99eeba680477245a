/**
 * Server-side localisation of push notification texts: choosing the message
 * set for a subscriber's locale, and filling `{name}` placeholders in a
 * message template (`template.replace(/\{(\w+)\}/g, ...)`).
 */
module NotificationMessages {
  import opened Js

  /** The locales that have their own message set. */
  predicate SupportedLocale(locale: string)
  {
    locale == "en" || locale == "he" || locale == "ru"
  }

  /** The `PushNotifications` section of one locale's message file. */
  datatype MessageSet = MessageSet(
    newEntryTitle: string,
    entryDeletedTitle: string,
    addedExpense: string,
    addedLoan: string,
    removedEntry: string)

  /** The three message files, whose texts are not part of this model. */
  datatype Catalog = Catalog(en: MessageSet, he: MessageSet, ru: MessageSet)

  /** `getNotificationMessages`: the locale's own set when it has one, the English set otherwise. */
  function GetNotificationMessages(catalog: Catalog, locale: string): (m: MessageSet)
    ensures locale == "en" ==> m == catalog.en
    ensures locale == "he" ==> m == catalog.he
    ensures locale == "ru" ==> m == catalog.ru
    ensures !SupportedLocale(locale) ==> m == catalog.en
  {
    var valid := if SupportedLocale(locale) then locale else "en";
    if valid == "he" then catalog.he else if valid == "ru" then catalog.ru else catalog.en
  }

  /** A value of the `values` record: `string | number` (numbers restricted to integers). */
  datatype Value = Text(s: string) | Number(n: int)

  /** `String(value)`. */
  function ValueString(v: Value): string
  {
    match v
    case Text(s) => s
    case Number(n) => IntToString(n)
  }

  /** The regular-expression class `\w`: ASCII letters, digits and '_'. */
  predicate IsWordChar(c: char)
  {
    'A' <= c <= 'Z' || 'a' <= c <= 'z' || '0' <= c <= '9' || c == '_'
  }

  predicate IsName(name: string)
  {
    name != [] && forall i :: 0 <= i < |name| ==> IsWordChar(name[i])
  }

  /** The length of the longest prefix of word characters (what the greedy `\w+` consumes). */
  function WordPrefix(s: string): (n: nat)
    ensures n <= |s|
    ensures forall i :: 0 <= i < n ==> IsWordChar(s[i])
    ensures n < |s| ==> !IsWordChar(s[n])
  {
    if s == [] || !IsWordChar(s[0]) then 0 else 1 + WordPrefix(s[1..])
  }

  /**
   * Whether `\{(\w+)\}` matches at the start of `t`; if so, the length of the
   * captured name. `\w` never matches '}', so the greedy match cannot backtrack
   * to a shorter name.
   */
  function PlaceholderAt(t: string): (r: Option<nat>)
    ensures r.Some? ==> 1 <= r.value && r.value + 2 <= |t|
    ensures r.Some? ==> t[0] == '{' && IsName(t[1..r.value + 1]) && t[r.value + 1] == '}'
  {
    if t == [] || t[0] != '{' then None
    else
      var n := WordPrefix(t[1..]);
      if n >= 1 && n + 1 < |t| && t[n + 1] == '}' then Some(n) else None
  }

  /**
   * The properties every plain object inherits from `Object.prototype`:
   * `values[key]` finds them when `values` has no own property `key`.
   */
  predicate Inherited(name: string)
  {
    name in {"constructor", "__defineGetter__", "__defineSetter__", "hasOwnProperty",
             "__lookupGetter__", "__lookupSetter__", "isPrototypeOf", "propertyIsEnumerable",
             "toString", "valueOf", "__proto__", "toLocaleString"}
  }

  /**
   * `String(...)` of an inherited property, in the form the Node.js engine
   * prints: a native function shows its source as `[native code]`, and
   * `__proto__` is `Object.prototype` itself.
   */
  function InheritedString(name: string): string
    requires Inherited(name)
  {
    if name == "__proto__" then "[object Object]"
    else if name == "constructor" then "function Object() { [native code] }"
    else "function " + name + "() { [native code] }"
  }

  /**
   * The replacement callback: `String(values[key] ?? '{key}')`. An own value
   * wins; an inherited property is found next and is never nullish; only a
   * name found nowhere is kept as the literal placeholder.
   */
  function Substitute(name: string, values: map<string, Value>): (r: string)
    ensures name in values ==> r == ValueString(values[name])
    ensures name !in values && Inherited(name) ==> r == InheritedString(name)
    ensures name !in values && !Inherited(name) ==> r == "{" + name + "}"
  {
    if name in values then ValueString(values[name])
    else if Inherited(name) then InheritedString(name)
    else "{" + name + "}"
  }

  /**
   * `formatMessage`: scans left to right; each match is replaced and the scan
   * resumes after it, so replacement text is never scanned again.
   */
  function FormatMessage(template: string, values: map<string, Value>): (r: string)
    decreases |template|
  {
    if template == [] then []
    else
      match PlaceholderAt(template)
      case Some(n) => Substitute(template[1..n + 1], values) + FormatMessage(template[n + 2..], values)
      case None => [template[0]] + FormatMessage(template[1..], values)
  }

  /** A placeholder made of a word name is replaced, and the rest of the template is formatted on its own. */
  lemma FormatReplacesPlaceholder(name: string, rest: string, values: map<string, Value>)
    requires IsName(name)
    ensures FormatMessage("{" + name + "}" + rest, values) == Substitute(name, values) + FormatMessage(rest, values)
  {
    var t := "{" + name + "}" + rest;
    var n := |name|;
    assert t[0] == '{';
    assert t[1..] == name + ("}" + rest);
    WordPrefixOfName(name, "}" + rest);
    assert t[n + 1] == '}';
    assert PlaceholderAt(t) == Some(n);
    assert t[1..n + 1] == name;
    assert t[n + 2..] == rest;
  }

  lemma {:induction false} WordPrefixOfName(name: string, rest: string)
    requires IsName(name) && rest != [] && !IsWordChar(rest[0])
    ensures WordPrefix(name + rest) == |name|
    decreases |name|
  {
    var s := name + rest;
    if |name| > 1 {
      assert s[1..] == name[1..] + rest;
      WordPrefixOfName(name[1..], rest);
    } else {
      assert s[1..] == rest;
    }
  }

  /** No placeholder that `formatMessage` would match names an inherited property. */
  predicate NoInheritedPlaceholder(template: string)
    decreases |template|
  {
    if template == [] then true
    else
      match PlaceholderAt(template)
      case Some(n) => !Inherited(template[1..n + 1]) && NoInheritedPlaceholder(template[n + 2..])
      case None => NoInheritedPlaceholder(template[1..])
  }

  /**
   * With no values every placeholder is kept literally, so the output equals
   * the template, as long as no placeholder names an inherited property.
   */
  lemma {:induction false} FormatWithoutValues(template: string)
    requires NoInheritedPlaceholder(template)
    ensures FormatMessage(template, map[]) == template
    decreases |template|
  {
    if template != [] {
      match PlaceholderAt(template)
      case Some(n) =>
        FormatWithoutValues(template[n + 2..]);
        Reassemble(template, n);
      case None =>
        FormatWithoutValues(template[1..]);
        assert template == [template[0]] + template[1..];
    }
  }

  /** A template that starts with a placeholder is that placeholder followed by the rest. */
  lemma Reassemble(template: string, n: nat)
    requires 1 <= n && n + 2 <= |template|
    requires template[0] == '{' && template[n + 1] == '}'
    ensures template == "{" + template[1..n + 1] + "}" + template[n + 2..]
  {
  }

  /** Text without any '{' passes through unchanged. */
  lemma {:induction false} FormatKeepsPlainText(text: string, values: map<string, Value>)
    requires '{' !in text
    ensures FormatMessage(text, values) == text
    decreases |text|
  {
    if text != [] {
      assert text[0] in text;
      assert forall c :: c in text[1..] ==> c in text;
      FormatKeepsPlainText(text[1..], values);
      assert text == [text[0]] + text[1..];
    }
  }

  /** A '{' that does not open a placeholder is kept, and so is the plain text after it. */
  lemma {:induction false} LoneBraceIsKept(t: string, values: map<string, Value>)
    requires t != [] && t[0] == '{' && PlaceholderAt(t) == None && '{' !in t[1..]
    ensures FormatMessage(t, values) == t
  {
    FormatKeepsPlainText(t[1..], values);
    assert t == [t[0]] + t[1..];
  }

  /** `{}` and `{a-b}` are not placeholders and survive whatever the values are. */
  lemma NonWordBracesAreKept(values: map<string, Value>)
    ensures FormatMessage("{}", values) == "{}"
    ensures FormatMessage("{a-b}", values) == "{a-b}"
  {
    var t := "{}";
    assert PlaceholderAt(t) == None by {
      assert t[1..] == "}";
      assert WordPrefix("}") == 0;
    }
    LoneBraceIsKept(t, values);
    t := "{a-b}";
    assert PlaceholderAt(t) == None by {
      assert t[1..] == "a-b}";
      assert "a-b}"[1..] == "-b}";
      assert WordPrefix("-b}") == 0;
      assert WordPrefix("a-b}") == 1;
    }
    LoneBraceIsKept(t, values);
  }

  /** A numeric value of 0 is substituted as "0" rather than being treated as missing. */
  lemma ZeroIsSubstituted(name: string)
    requires IsName(name)
    ensures FormatMessage("{" + name + "}", map[name := Number(0)]) == "0"
  {
    var values := map[name := Number(0)];
    FormatReplacesPlaceholder(name, "", values);
    assert "{" + name + "}" + "" == "{" + name + "}";
  }

  /**
   * A placeholder naming an inherited property is replaced even when the
   * values lack it, so such a template is not returned unchanged.
   */
  lemma InheritedNameIsSubstituted(name: string, rest: string)
    requires IsName(name) && Inherited(name)
    ensures FormatMessage("{" + name + "}" + rest, map[]) == InheritedString(name) + FormatMessage(rest, map[])
    ensures FormatMessage("{" + name + "}" + rest, map[]) != "{" + name + "}" + rest
  {
    FormatReplacesPlaceholder(name, rest, map[]);
  }

  /** `{constructor}` becomes the text of the `Object` function. */
  lemma ConstructorIsSubstituted()
    ensures FormatMessage("{constructor}", map[]) == "function Object() { [native code] }"
  {
    var name := "constructor";
    assert IsName(name) by {
      forall i | 0 <= i < |name| ensures IsWordChar(name[i]) { }
    }
    assert "{" + name + "}" + "" == "{constructor}";
    InheritedNameIsSubstituted(name, "");
  }

  /** A substituted value that itself looks like a placeholder is not expanded again. */
  lemma SubstitutedValuesAreNotRescanned(a: string, b: string, other: Value)
    requires IsName(a) && IsName(b) && a != b
    ensures FormatMessage("{" + a + "}", map[a := Text("{" + b + "}"), b := other]) == "{" + b + "}"
  {
    var values := map[a := Text("{" + b + "}"), b := other];
    FormatReplacesPlaceholder(a, "", values);
    assert "{" + a + "}" + "" == "{" + a + "}";
  }
}
