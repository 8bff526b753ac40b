/**
 * The values `JSON.parse` can produce, and the three JavaScript operations the
 * formatter applies to them: truthiness, reading a named property, and
 * conversion to text inside a template literal.
 */
module Json {
  import opened Results
  import opened JsText

  /**
   * A parsed JSON value. Numbers are `real`: `JSON.parse` can also produce
   * `Infinity` (from "1e999"), which this type cannot hold; the parse outcome and
   * the writing of numbers (`show`) are inputs of the model, so no step here
   * depends on that case.
   */
  datatype Json =
    | Null
    | Bool(b: bool)
    | Number(n: real)
    | Str(s: string)
    | Array(items: seq<Json>)
    | Object(fields: map<string, Json>)

  /** What `JSON.parse` did with a text: it threw, or it produced a value. */
  datatype ParseOutcome = ParseError | Parsed(value: Json)

  /** JavaScript truthiness of a property read, where `None` is `undefined`. */
  predicate Truthy(v: Option<Json>) {
    match v
    case None => false
    case Some(Null) => false
    case Some(Bool(b)) => b
    case Some(Number(n)) => n != 0.0
    case Some(Str(s)) => s != ""
    case Some(Array(_)) => true
    case Some(Object(_)) => true
  }

  /**
   * `v.key` for a value that is not `null` (reading a property of `null` throws,
   * and the caller handles that case). Only objects have the keys the formatter
   * reads; on every other value the read is `undefined`.
   */
  function Member(v: Json, key: string): Option<Json>
    requires !v.Null?
  {
    if v.Object? && key in v.fields then Some(v.fields[key]) else None
  }

  /**
   * The text `${v}` produces, or `None` when the conversion throws. Numbers are
   * written by `show`. An array joins its elements with "," and writes `null`
   * elements as nothing. A plain object is "[object Object]"; an object with its
   * own "toString" key has neither a callable `toString` nor a `valueOf` that
   * yields a primitive, so converting it throws a TypeError.
   */
  function ToJsString(v: Json, show: real -> string): Option<string>
    decreases v, 1, 0
  {
    match v
    case Null => Some("null")
    case Bool(b) => Some(if b then "true" else "false")
    case Number(n) => Some(show(n))
    case Str(s) => Some(s)
    case Array(items) =>
      (match ElementStrings(v, 0, show)
       case None => None
       case Some(parts) => Some(Join(parts, ",")))
    case Object(fields) =>
      if "toString" in fields then None else Some("[object Object]")
  }

  /** The texts of the array elements from index `i` on, as `join` writes them. */
  function ElementStrings(v: Json, i: nat, show: real -> string): Option<seq<string>>
    requires v.Array? && i <= |v.items|
    decreases v, 0, |v.items| - i
  {
    if i == |v.items| then Some([])
    else
      var head := if v.items[i].Null? then Some("") else ToJsString(v.items[i], show);
      var tail := ElementStrings(v, i + 1, show);
      if head.None? || tail.None? then None else Some([head.value] + tail.value)
  }

  /** The text `join` writes for one element: nothing for `null`, its template-literal text otherwise. */
  function ElementText(item: Json, show: real -> string): string {
    if item.Null? then ""
    else
      match ToJsString(item, show)
      case Some(text) => text
      case None => ""
  }

  /** The element texts of an array, in order. */
  function ElementTexts(items: seq<Json>, show: real -> string): (texts: seq<string>)
    ensures |texts| == |items|
    ensures forall k :: 0 <= k < |items| ==> texts[k] == ElementText(items[k], show)
  {
    seq(|items|, k requires 0 <= k < |items| => ElementText(items[k], show))
  }

  /** The elements from index `i` on convert iff each is `null` or converts, and then give their texts. */
  lemma {:induction false} ElementStringsFrom(v: Json, i: nat, show: real -> string)
    requires v.Array? && i <= |v.items|
    ensures ElementStrings(v, i, show).Some? <==>
      forall j :: i <= j < |v.items| ==> v.items[j].Null? || ToJsString(v.items[j], show).Some?
    ensures ElementStrings(v, i, show).Some? ==> ElementStrings(v, i, show).value == ElementTexts(v.items, show)[i..]
    decreases |v.items| - i
  {
    var texts := ElementTexts(v.items, show);
    if i == |v.items| {
      assert texts[i..] == [];
    } else {
      ElementStringsFrom(v, i + 1, show);
      assert texts[i..] == [texts[i]] + texts[i + 1..];
    }
  }

  /**
   * `${array}` converts iff every element is `null` or converts itself, and then
   * it is the element texts joined by ",", with `null` written as nothing.
   */
  lemma ArrayConversion(items: seq<Json>, show: real -> string)
    ensures ToJsString(Array(items), show).Some? <==>
      forall j :: 0 <= j < |items| ==> items[j].Null? || ToJsString(items[j], show).Some?
    ensures ToJsString(Array(items), show).Some? ==>
      ToJsString(Array(items), show).value == Join(ElementTexts(items, show), ",")
  {
    ElementStringsFrom(Array(items), 0, show);
    assert ElementTexts(items, show)[0..] == ElementTexts(items, show);
  }

  /** The falsy values a property read can give: `undefined`, `null`, `false`, `0` and `""`. */
  lemma FalsyValues(v: Option<Json>)
    ensures !Truthy(v) <==> v in {None, Some(Null), Some(Bool(false)), Some(Number(0.0)), Some(Str(""))}
  {
  }

  /**
   * Template-literal conversion case by case: a string is itself, a number is
   * written by `show`, a plain object is "[object Object]", one with its own
   * "toString" key throws, and the array `[s, null, n]` is `s + ",," + show(n)`.
   */
  lemma TemplateConversion(s: string, n: real, fields: map<string, Json>, show: real -> string)
    ensures ToJsString(Str(s), show) == Some(s)
    ensures ToJsString(Number(n), show) == Some(show(n))
    ensures ToJsString(Object(fields), show) == if "toString" in fields then None else Some("[object Object]")
    ensures ToJsString(Array([Str(s), Null, Number(n)]), show) == Some(s + "," + "" + "," + show(n))
  {
    var v := Array([Str(s), Null, Number(n)]);
    assert ToJsString(v.items[0], show) == Some(s);
    assert ToJsString(v.items[2], show) == Some(show(n));
    assert ElementStrings(v, 3, show) == Some([]);
    assert [show(n)] + [] == [show(n)];
    assert ElementStrings(v, 2, show) == Some([show(n)]);
    assert ElementStrings(v, 1, show) == Some([""] + [show(n)]);
    assert [""] + [show(n)] == ["", show(n)];
    assert ElementStrings(v, 0, show) == Some([s] + ["", show(n)]);
    assert [s] + ["", show(n)] == [s, "", show(n)];
    assert [s, "", show(n)][..2] == [s, ""];
    assert [s, ""][..1] == [s];
    assert Join([s, ""], ",") == s + "," + "";
    assert Join([s, "", show(n)], ",") == Join([s, ""], ",") + "," + show(n);
    assert ToJsString(v, show) == Some(Join([s, "", show(n)], ","));
  }
}
