/** Decoded JSON values as Python's `response.json()`, Flask's `jsonify` and the
    dashboard's `response.json()` see them, with the two languages' truthiness
    and the text a DOM node shows once a value is assigned to it. */
module Json {
  import opened Common
  import opened Text

  /** Numbers are integers here: the sources only exchange counters and a start time
      taken as a whole number of seconds. */
  datatype Json =
    | JNull
    | JBool(b: bool)
    | JNum(n: int)
    | JStr(s: string)
    | JArr(items: seq<Json>)
    | JObj(fields: map<string, Json>)

  /** Python's `if value:` on a decoded value: `None`, `False`, `0`, `''`, `[]` and `{}` are false. */
  predicate PyTruthy(j: Json) {
    match j
    case JNull => false
    case JBool(b) => b
    case JNum(n) => n != 0
    case JStr(s) => s != ""
    case JArr(items) => items != []
    case JObj(fields) => fields != map[]
  }

  /** JavaScript's `if (value)`: `null`, `false`, `0` and `""` are false; every array
      and every object is true. */
  predicate JsTruthy(j: Json) {
    match j
    case JNull => false
    case JBool(b) => b
    case JNum(n) => n != 0
    case JStr(s) => s != ""
    case JArr(_) => true
    case JObj(_) => true
  }

  /** Reading a key of an object: Python's `d.get(key)` on a dict and JavaScript's
      `data.key` on an object; `None` is the missing key (`None` / `undefined`). */
  function Field(j: Json, key: string): (r: Option<Json>)
    ensures r.Some? <==> j.JObj? && key in j.fields
  {
    if j.JObj? && key in j.fields then Some(j.fields[key]) else None
  }

  /** The text a DOM node holds after `node.textContent = value`: `null` gives the
      empty string, numbers their decimal form, arrays their elements joined by
      commas, objects `[object Object]`. */
  function DisplayText(j: Json): string
    decreases j, 1
  {
    match j
    case JNull => ""
    case JBool(b) => if b then "true" else "false"
    case JNum(n) => IntToString(n)
    case JStr(s) => s
    case JArr(items) => DisplayJoined(items)
    case JObj(_) => "[object Object]"
  }

  /** `Array.prototype.join(",")`, which shows `null` elements as the empty string. */
  function DisplayJoined(items: seq<Json>): string
    decreases items, 0
  {
    if |items| == 0 then ""
    else if |items| == 1 then DisplayText(items[0])
    else DisplayText(items[0]) + "," + DisplayJoined(items[1..])
  }

  // ---------------------------------------------------------------------------
  // JavaScript's conversion to a number, as `a - b` applies it to its operands

  /** The characters JavaScript's `Number()` trims: white space and line terminators. */
  predicate IsJsSpace(c: char) {
    || c == ' ' || c == '\t' || c == '\n' || c == '\r' || c == '\U{000B}' || c == '\U{000C}'
    || c == '\U{00A0}' || c == '\U{FEFF}' || c == '\U{1680}'
    || ('\U{2000}' <= c <= '\U{200A}')
    || c == '\U{2028}' || c == '\U{2029}' || c == '\U{202F}' || c == '\U{205F}' || c == '\U{3000}'
  }

  function JsTrimLeft(s: string): (r: string)
    ensures |r| <= |s| && r == s[|s| - |r|..]
    ensures r == [] || !IsJsSpace(r[0])
  {
    if |s| > 0 && IsJsSpace(s[0]) then JsTrimLeft(s[1..]) else s
  }

  function JsTrimRight(s: string): (r: string)
    ensures |r| <= |s| && r == s[..|r|]
    ensures r == [] || !IsJsSpace(r[|r| - 1])
  {
    if |s| > 0 && IsJsSpace(s[|s| - 1]) then JsTrimRight(s[..|s| - 1]) else s
  }

  /** `String.prototype.trim()`. */
  function JsTrim(s: string): string {
    JsTrimRight(JsTrimLeft(s))
  }

  /** `Number(s)` for a string holding an integer in decimal: blank text is 0, and a
      sign may precede the digits. `None` is `NaN`. */
  function StrNumber(s: string): Option<int> {
    SignedDecimal(JsTrim(s))
  }

  /** The value of trimmed text: empty is 0, otherwise an optional sign and digits. */
  function SignedDecimal(t: string): Option<int> {
    if t == [] then Some(0)
    else if (t[0] == '-' || t[0] == '+') && IsDigits(t[1..]) then
      var v: int := DigitsValue(t[1..]);
      Some(if t[0] == '-' then -v else v)
    else if IsDigits(t) then Some(DigitsValue(t))
    else None
  }

  /** `Number(value)`: `null` and `false` are 0, `true` is 1, a string is read as a
      number, an array as the text of its elements joined by commas, and an object is
      `NaN` (`None`). */
  function JsNumber(j: Json): Option<int> {
    match j
    case JNull => Some(0)
    case JBool(b) => Some(if b then 1 else 0)
    case JNum(n) => Some(n)
    case JStr(s) => StrNumber(s)
    case JArr(items) => StrNumber(DisplayJoined(items))
    case JObj(_) => None
  }

  /** Text that neither starts nor ends with JavaScript white space is not trimmed. */
  lemma JsTrimKeeps(s: string)
    requires s == [] || (!IsJsSpace(s[0]) && !IsJsSpace(s[|s| - 1]))
    ensures JsTrim(s) == s
  {
  }

  /** A run of digits reads as the number it denotes. */
  lemma StrNumberDigits(d: string)
    requires |d| > 0 && IsDigits(d)
    ensures StrNumber(d) == Some(DigitsValue(d))
  {
    assert IsDigit(d[0]) && IsDigit(d[|d| - 1]);
    JsTrimKeeps(d);
  }

  /** A minus sign and a run of digits read as the negated number. */
  lemma SignedText(t: string)
    requires |t| > 1 && t[0] == '-' && IsDigits(t[1..])
    ensures StrNumber(t) == Some(-(DigitsValue(t[1..]) as int))
  {
    assert JsTrim(t) == t by {
      assert t[|t| - 1] == t[1..][|t| - 2] && IsDigit(t[1..][|t| - 2]);
      JsTrimKeeps(t);
    }
  }

  /** The decimal text of an integer reads back as that integer. */
  lemma StrNumberOfDecimal(i: int)
    ensures StrNumber(IntToString(i)) == Some(i)
  {
    if i < 0 {
      StrNumberOfNegative(-i);
    } else {
      StrNumberOfNatural(i);
    }
  }

  lemma StrNumberOfNatural(n: nat)
    ensures StrNumber(IntToString(n)) == Some(n)
  {
    var d := NatToString(n);
    assert IntToString(n) == d;
    assert DigitsValue(d) == n by {
      DigitsValueOfNatToString(n);
    }
    StrNumberDigits(d);
  }

  lemma StrNumberOfNegative(n: nat)
    requires n > 0
    ensures StrNumber(IntToString(-(n as int))) == Some(-(n as int))
  {
    var d := NatToString(n);
    assert DigitsValue(d) == n by {
      DigitsValueOfNatToString(n);
    }
    var t := IntToString(-(n as int));
    assert t == "-" + d;
    assert t[0] == '-' && t[1..] == d;
    SignedText(t);
  }

  /** Text made only of JavaScript white space. */
  predicate AllJsSpace(s: string) {
    forall i :: 0 <= i < |s| ==> IsJsSpace(s[i])
  }

  /** White space in front of any text is trimmed away. */
  lemma {:induction false} JsTrimLeftSpaces(ws: string, s: string)
    requires AllJsSpace(ws)
    ensures JsTrimLeft(ws + s) == JsTrimLeft(s)
    decreases |ws|
  {
    if ws != [] {
      assert (ws + s)[0] == ws[0] && (ws + s)[1..] == ws[1..] + s;
      JsTrimLeftSpaces(ws[1..], s);
    } else {
      assert ws + s == s;
    }
  }

  /** White space after any text is trimmed away. */
  lemma {:induction false} JsTrimRightSpaces(s: string, ws: string)
    requires AllJsSpace(ws)
    ensures JsTrimRight(s + ws) == JsTrimRight(s)
    decreases |ws|
  {
    if ws != [] {
      var w := ws[..|ws| - 1];
      assert (s + ws)[|s + ws| - 1] == ws[|ws| - 1] && (s + ws)[..|s + ws| - 1] == s + w;
      JsTrimRightSpaces(s, w);
    } else {
      assert s + ws == s;
    }
  }

  /** Trimming the front of text that holds something besides white space stops inside
      it, so whatever follows is kept whole. */
  lemma {:induction false} JsTrimLeftAppend(s: string, t: string)
    requires !AllJsSpace(s)
    ensures JsTrimLeft(s + t) == JsTrimLeft(s) + t
    decreases |s|
  {
    assert (s + t)[0] == s[0];
    if IsJsSpace(s[0]) {
      assert (s + t)[1..] == s[1..] + t;
      assert !AllJsSpace(s[1..]) by {
        var i :| 0 <= i < |s| && !IsJsSpace(s[i]);
        assert s[1..][i - 1] == s[i];
      }
      JsTrimLeftAppend(s[1..], t);
    }
  }

  /** White space around a number's text, of any kind and length, is ignored. */
  lemma StrNumberPadded(pre: string, d: string, post: string)
    requires AllJsSpace(pre) && AllJsSpace(post)
    ensures StrNumber(pre + d + post) == StrNumber(d)
  {
    assert pre + d + post == pre + (d + post);
    JsTrimLeftSpaces(pre, d + post);
    if AllJsSpace(d) {
      assert AllJsSpace(d + post) by {
        forall i | 0 <= i < |d + post|
          ensures IsJsSpace((d + post)[i])
        {
          if i < |d| { assert (d + post)[i] == d[i]; } else { assert (d + post)[i] == post[i - |d|]; }
        }
      }
      JsTrimLeftSpaces(d + post, []);
      JsTrimLeftSpaces(d, []);
      assert d + post + [] == d + post && d + [] == d;
    } else {
      JsTrimLeftAppend(d, post);
      JsTrimRightSpaces(JsTrimLeft(d), post);
    }
  }

  /** Every integer reads back as itself from its decimal text. */
  lemma JsNumberOfText(i: int)
    ensures JsNumber(JStr(IntToString(i))) == Some(i)
  {
    StrNumberOfDecimal(i);
  }

  /** A one-element array holding an integer, or its text, reads as that integer. */
  lemma JsNumberOfArray(i: int)
    ensures JsNumber(JArr([JNum(i)])) == Some(i)
    ensures JsNumber(JArr([JStr(IntToString(i))])) == Some(i)
  {
    StrNumberOfDecimal(i);
    assert DisplayJoined([JNum(i)]) == IntToString(i);
    assert DisplayJoined([JStr(IntToString(i))]) == IntToString(i);
  }

  /** Blank text and the empty array are 0, and an object is `NaN`. */
  lemma JsNumberOfBlank(fields: map<string, Json>)
    ensures JsNumber(JStr("")) == Some(0) && JsNumber(JStr(" ")) == Some(0)
    ensures JsNumber(JArr([])) == Some(0)
    ensures JsNumber(JObj(fields)) == None
  {
    assert JsTrimLeft(" ") == [] by {
      assert " "[1..] == [];
    }
  }
}
