/**
 * JavaScript and Python values as the client and the AI engine see them:
 * optional values, error results, JSON-like objects with JavaScript's
 * notion of truthiness, and String.prototype.trim.
 */
module Values {

  datatype Option<+T> = None | Some(value: T)

  datatype Result<+T, +E> = Ok(value: T) | Err(error: E)

  /** A JavaScript value that can travel through JSON, plus `undefined`. */
  datatype Json =
    | JUndefined
    | JNull
    | JBool(b: bool)
    | JNumber(n: real)
    | JString(s: string)
    | JArray(items: seq<Json>)
    | JObject(fields: map<string, Json>)

  /** JavaScript truthiness: undefined, null, false, 0 and "" are falsy. */
  predicate Truthy(v: Json)
    ensures !Truthy(v) <==> v in {JUndefined, JNull, JBool(false), JNumber(0.0), JString("")}
  {
    match v
    case JUndefined => false
    case JNull => false
    case JBool(b) => b
    case JNumber(n) => n != 0.0
    case JString(s) => s != ""
    case JArray(_) => true
    case JObject(_) => true
  }

  /** Property access `v.key` on a parsed JSON value: the object's own field, undefined
      otherwise. Inherited members and built-ins such as `length` are not modelled. */
  function Property(v: Json, key: string): (r: Json)
    ensures v.JObject? && key in v.fields ==> r == v.fields[key]
    ensures !(v.JObject? && key in v.fields) ==> r == JUndefined
  {
    if v.JObject? && key in v.fields then v.fields[key] else JUndefined
  }

  function Min(a: int, b: int): int {
    if a <= b then a else b
  }

  /** The WhiteSpace and LineTerminator code points that String.prototype.trim removes
      (ECMAScript, sections 12.2 and 12.3). */
  const JS_WHITESPACE: set<char> :=
        {'\t', '\n', '\U{000B}', '\U{000C}', '\r', ' ', '\U{00A0}', '\U{1680}',
          '\U{2000}', '\U{2001}', '\U{2002}', '\U{2003}', '\U{2004}', '\U{2005}',
          '\U{2006}', '\U{2007}', '\U{2008}', '\U{2009}', '\U{200A}', '\U{2028}',
          '\U{2029}', '\U{202F}', '\U{205F}', '\U{3000}', '\U{FEFF}'}

  predicate IsJsWhitespace(c: char) {
    c in JS_WHITESPACE
  }

  predicate AllWhitespace(s: string) {
    forall i :: 0 <= i < |s| ==> IsJsWhitespace(s[i])
  }

  /** Every character of `s` from index `lo` up to `hi` is white space. */
  predicate WhitespaceIn(s: string, lo: int, hi: int) {
    forall i :: lo <= i < hi && 0 <= i < |s| ==> IsJsWhitespace(s[i])
  }

  /** One step of TrimStart: a white-space first character joins what is dropped. */
  lemma DropLeadingStep(s: string, r: string)
    requires s != [] && IsJsWhitespace(s[0])
    requires |r| <= |s| - 1 && r == s[1..][|s| - 1 - |r|..]
    requires WhitespaceIn(s[1..], 0, |s| - 1 - |r|)
    requires r != [] ==> !IsJsWhitespace(r[0])
    ensures r == s[|s| - |r|..]
    ensures WhitespaceIn(s, 0, |s| - |r|)
    ensures r == [] <==> AllWhitespace(s)
  {
    forall i | 0 < i < |s| - |r| ensures IsJsWhitespace(s[i]) {
      assert s[i] == s[1..][i - 1];
    }
    if r != [] {
      assert s[|s| - |r|] == r[0];
    }
  }

  /** One step of TrimEnd: a white-space last character joins what is dropped. */
  lemma DropTrailingStep(s: string, r: string)
    requires s != [] && IsJsWhitespace(s[|s| - 1])
    requires |r| <= |s| - 1 && r == s[..|s| - 1][..|r|]
    requires WhitespaceIn(s[..|s| - 1], |r|, |s| - 1)
    requires r != [] ==> !IsJsWhitespace(r[|r| - 1])
    ensures r == s[..|r|]
    ensures WhitespaceIn(s, |r|, |s|)
    ensures r == [] <==> AllWhitespace(s)
  {
    forall i | |r| <= i < |s| - 1 ensures IsJsWhitespace(s[i]) {
      assert s[i] == s[..|s| - 1][i];
    }
    if r != [] {
      assert s[|r| - 1] == r[|r| - 1];
    }
  }

  /** Drops the leading white space of `s`: what is dropped is all white space,
      and what remains is empty or starts with another character. */
  function TrimStart(s: string): (r: string)
    ensures |r| <= |s| && r == s[|s| - |r|..]
    ensures WhitespaceIn(s, 0, |s| - |r|)
    ensures r == [] <==> AllWhitespace(s)
    ensures r != [] ==> !IsJsWhitespace(r[0])
  {
    if s != [] && IsJsWhitespace(s[0]) then
      var r := TrimStart(s[1..]);
      DropLeadingStep(s, r);
      r
    else
      s
  }

  /** Drops the trailing white space of `s`: what is dropped is all white space,
      and what remains is empty or ends with another character. */
  function TrimEnd(s: string): (r: string)
    ensures |r| <= |s| && r == s[..|r|]
    ensures WhitespaceIn(s, |r|, |s|)
    ensures r == [] <==> AllWhitespace(s)
    ensures r != [] ==> !IsJsWhitespace(r[|r| - 1])
  {
    if s != [] && IsJsWhitespace(s[|s| - 1]) then
      var r := TrimEnd(s[..|s| - 1]);
      DropTrailingStep(s, r);
      r
    else
      s
  }

  /** Trimming the end of what trimming the start left gives a slice of the input with
      white space on both sides and none at its ends. */
  lemma TrimmedAtBothEnds(s: string, t: string, r: string)
    requires |t| <= |s| && t == s[|s| - |t|..] && WhitespaceIn(s, 0, |s| - |t|)
    requires t != [] ==> !IsJsWhitespace(t[0])
    requires |r| <= |t| && r == t[..|r|] && WhitespaceIn(t, |r|, |t|)
    requires r != [] ==> !IsJsWhitespace(r[|r| - 1])
    ensures r == [] <==> AllWhitespace(s)
    ensures r != [] ==> !IsJsWhitespace(r[0]) && !IsJsWhitespace(r[|r| - 1])
    ensures TrimmedAt(r, s, |s| - |t|)
  {
    var i := |s| - |t|;
    assert s[i..i + |r|] == t[..|r|];
    forall k | i + |r| <= k < |s| ensures IsJsWhitespace(s[k]) {
      assert s[k] == t[k - i];
    }
    if r != [] {
      assert r[0] == t[0] == s[i];
    } else if t == [] {
      assert forall k :: 0 <= k < |s| ==> IsJsWhitespace(s[k]);
    }
  }

  /** String.prototype.trim: the slice of `s` left after dropping white space at both
      ends. It is empty exactly for all-white-space input, and otherwise has no white
      space at either end. */
  function Trim(s: string): (r: string)
    ensures r == [] <==> AllWhitespace(s)
    ensures r != [] ==> !IsJsWhitespace(r[0]) && !IsJsWhitespace(r[|r| - 1])
    ensures exists i :: TrimmedAt(r, s, i)
  {
    TrimmedAtBothEnds(s, TrimStart(s), TrimEnd(TrimStart(s)));
    TrimEnd(TrimStart(s))
  }

  /** `r` is the slice of `s` that starts at index `i`. */
  predicate OccursAt(r: string, s: string, i: int) {
    0 <= i <= |s| - |r| && s[i..i + |r|] == r
  }

  /** `r` is the slice of `s` at index `i`, and everything of `s` around it is white space. */
  predicate TrimmedAt(r: string, s: string, i: int) {
    OccursAt(r, s, i) && WhitespaceIn(s, 0, i) && WhitespaceIn(s, i + |r|, |s|)
  }
}
