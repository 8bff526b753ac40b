/**
 * The JavaScript library operations the adapter relies on: `String.prototype.trim`,
 * `Array.prototype.join`, `Array.prototype.map`, and the decimal text of an
 * integer (`String(n)`).
 */
module JsText {
  import opened Results

  /** WhiteSpace and LineTerminator code points of ECMAScript, the set `trim` removes. */
  predicate IsWhitespace(c: char) {
    || c == '\t' || c == '\n' || c == '\U{000B}' || c == '\U{000C}' || c == '\r'
    || c == ' ' || c == '\U{00A0}' || c == '\U{1680}'
    || ('\U{2000}' <= c <= '\U{200A}')
    || c == '\U{2028}' || c == '\U{2029}' || c == '\U{202F}' || c == '\U{205F}'
    || c == '\U{3000}' || c == '\U{FEFF}'
  }

  /** Every character of `s` is whitespace. */
  predicate AllWhitespace(s: string) {
    s == [] || (IsWhitespace(s[0]) && AllWhitespace(s[1..]))
  }

  /** Text is all whitespace exactly when each of its two halves is. */
  lemma {:induction false} AllWhitespaceConcat(a: string, b: string)
    ensures AllWhitespace(a + b) <==> AllWhitespace(a) && AllWhitespace(b)
  {
    if a == [] {
      assert a + b == b;
    } else {
      assert (a + b)[1..] == a[1..] + b;
      AllWhitespaceConcat(a[1..], b);
    }
  }

  /** `s` without its leading whitespace. */
  function TrimStart(s: string): (r: string)
    ensures |r| <= |s|
    ensures r == [] || !IsWhitespace(r[0])
  {
    if s == [] || !IsWhitespace(s[0]) then s else TrimStart(s[1..])
  }

  /** `s` without its trailing whitespace. */
  function TrimEnd(s: string): (r: string)
    ensures |r| <= |s|
    ensures r == [] || !IsWhitespace(r[|r| - 1])
  {
    if s == [] || !IsWhitespace(s[|s| - 1]) then s else TrimEnd(s[..|s| - 1])
  }

  /** `TrimStart` keeps a suffix of `s` and drops only whitespace before it. */
  lemma {:induction false} TrimStartDropsWhitespace(s: string)
    ensures var r := TrimStart(s);
      r == s[|s| - |r|..] && AllWhitespace(s[..|s| - |r|])
  {
    if s != [] && IsWhitespace(s[0]) {
      var r := TrimStart(s[1..]);
      var k := |s| - |r|;
      TrimStartDropsWhitespace(s[1..]);
      assert s[k..] == s[1..][k - 1..];
      assert s[..k][1..] == s[1..][..k - 1];
    } else {
      assert s[..0] == [];
    }
  }

  /** `TrimEnd` keeps a prefix of `s` and drops only whitespace after it. */
  lemma {:induction false} TrimEndDropsWhitespace(s: string)
    ensures var r := TrimEnd(s);
      r == s[..|r|] && AllWhitespace(s[|r|..])
  {
    if s != [] && IsWhitespace(s[|s| - 1]) {
      var p := s[..|s| - 1];
      var r := TrimEnd(p);
      TrimEndDropsWhitespace(p);
      assert s[..|r|] == p[..|r|];
      assert s[|r|..] == p[|r|..] + [s[|s| - 1]];
      AllWhitespaceConcat(p[|r|..], [s[|s| - 1]]);
    } else {
      assert s[|s|..] == [];
    }
  }

  /** `String.prototype.trim`: `s` without its leading and trailing whitespace. */
  function Trim(s: string): (r: string)
    ensures |r| <= |s|
    ensures r == [] || (!IsWhitespace(r[0]) && !IsWhitespace(r[|r| - 1]))
  {
    var t := TrimStart(s);
    TrimEndDropsWhitespace(t);
    TrimEnd(t)
  }

  /** Whitespace in front of a text that does not start with whitespace is what `TrimStart` drops. */
  lemma {:induction false} TrimStartSkips(a: string, t: string)
    requires AllWhitespace(a)
    requires t == [] || !IsWhitespace(t[0])
    ensures TrimStart(a + t) == t
  {
    if a != [] {
      assert (a + t)[1..] == a[1..] + t;
      TrimStartSkips(a[1..], t);
    } else {
      assert a + t == t;
    }
  }

  /** Whitespace after a text that does not end with whitespace is what `TrimEnd` drops. */
  lemma {:induction false} TrimEndSkips(t: string, b: string)
    requires AllWhitespace(b)
    requires t == [] || !IsWhitespace(t[|t| - 1])
    ensures TrimEnd(t + b) == t
  {
    if b != [] {
      var init := b[..|b| - 1];
      assert b == init + [b[|b| - 1]];
      AllWhitespaceConcat(init, [b[|b| - 1]]);
      assert (t + b)[..|t + b| - 1] == t + init;
      TrimEndSkips(t, init);
    } else {
      assert t + b == t;
    }
  }

  /**
   * `Trim` is characterised by its contract: the only text that whitespace pads out
   * to `a + r + b` and that neither starts nor ends with whitespace is `Trim(a + r + b)`.
   */
  lemma TrimUnique(a: string, r: string, b: string)
    requires AllWhitespace(a) && AllWhitespace(b)
    requires r == [] || (!IsWhitespace(r[0]) && !IsWhitespace(r[|r| - 1]))
    ensures Trim(a + r + b) == r
  {
    if r == [] {
      var w := a + b;
      assert a + r + b == w;
      AllWhitespaceConcat(a, b);
      TrimBlank(w);
    } else {
      var tail := r + b;
      assert a + r + b == a + tail;
      TrimStartSkips(a, tail);
      TrimEndSkips(r, b);
    }
  }

  /** Text made only of whitespace trims to the empty string. */
  lemma TrimBlank(w: string)
    requires AllWhitespace(w)
    ensures Trim(w) == []
  {
    assert w + [] == w;
    TrimStartSkips(w, []);
  }

  /** A text whose ends are not whitespace is left as it is. */
  lemma TrimKeepsTrimmed(r: string)
    requires r == [] || (!IsWhitespace(r[0]) && !IsWhitespace(r[|r| - 1]))
    ensures Trim(r) == r
  {
    assert TrimStart(r) == r;
    assert TrimEnd(r) == r;
  }

  /** Trimming twice gives what trimming once does. */
  lemma TrimIdempotent(s: string)
    ensures Trim(Trim(s)) == Trim(s)
  {
    TrimKeepsTrimmed(Trim(s));
  }

  /**
   * `Array.prototype.join` on an array of strings: the parts in order with `sep`
   * between neighbours; the empty array joins to the empty string.
   */
  function Join(parts: seq<string>, sep: string): string {
    if |parts| == 0 then ""
    else if |parts| == 1 then parts[0]
    else Join(parts[..|parts| - 1], sep) + sep + parts[|parts| - 1]
  }

  /** A join splits at every separator position into the joins of the two halves. */
  lemma JoinSplitAt(parts: seq<string>, sep: string, k: nat)
    requires 0 < k < |parts|
    ensures Join(parts, sep) == Join(parts[..k], sep) + sep + Join(parts[k..], sep)
  {
    assert parts == parts[..k] + parts[k..];
    JoinConcat(parts[..k], parts[k..], sep);
  }

  /** Joining two non-empty lists one after the other puts one separator between their joins. */
  lemma {:induction false} JoinConcat(xs: seq<string>, ys: seq<string>, sep: string)
    requires |xs| > 0 && |ys| > 0
    ensures Join(xs + ys, sep) == Join(xs, sep) + sep + Join(ys, sep)
    decreases |ys|
  {
    var last := ys[|ys| - 1];
    if |ys| == 1 {
      assert (xs + ys)[..|xs + ys| - 1] == xs;
    } else {
      var init := ys[..|ys| - 1];
      assert (xs + ys)[..|xs + ys| - 1] == xs + init;
      JoinConcat(xs, init, sep);
      Regroup(Join(xs, sep), sep, Join(init, sep), last);
    }
  }

  /** Regrouping two appended separators. */
  lemma Regroup(a: string, sep: string, b: string, c: string)
    ensures a + sep + b + sep + c == a + sep + (b + sep + c)
  {
  }

  /** The first part is a prefix of the join. */
  lemma {:induction false} JoinStartsWithFirst(parts: seq<string>, sep: string)
    requires |parts| > 0
    ensures |parts[0]| <= |Join(parts, sep)|
    ensures Join(parts, sep)[..|parts[0]|] == parts[0]
  {
    if |parts| > 1 {
      JoinStartsWithFirst(parts[..|parts| - 1], sep);
    }
  }

  /** Appending one part extends the join by the separator and that part. */
  lemma JoinAppend(parts: seq<string>, sep: string, last: string)
    requires |parts| > 0
    ensures Join(parts + [last], sep) == Join(parts, sep) + sep + last
  {
    assert (parts + [last])[..|parts|] == parts;
  }

  /**
   * `Array.prototype.map` with a callback that may throw: the callback applied to
   * every element and its index, in order, or `None` when any call throws.
   */
  function MapIndexed<T, U>(items: seq<T>, f: (T, nat) -> Option<U>): (r: Option<seq<U>>)
    ensures r.Some? <==> forall k :: 0 <= k < |items| ==> f(items[k], k).Some?
    ensures r.Some? ==> |r.value| == |items|
    ensures r.Some? ==> forall k :: 0 <= k < |items| ==> f(items[k], k) == Some(r.value[k])
  {
    if items == [] then Some([])
    else
      var n := |items| - 1;
      assert forall k :: 0 <= k < n ==> items[..n][k] == items[k];
      match MapIndexed(items[..n], f)
      case None => None
      case Some(init) =>
        match f(items[n], n)
        case None => None
        case Some(last) => Some(init + [last])
  }

  predicate IsDigit(c: char) {
    '0' <= c <= '9'
  }

  function Digit(d: nat): (c: char)
    requires d < 10
    ensures IsDigit(c)
  {
    ('0' as int + d) as char
  }

  /** `String(n)` for a non-negative integer: its decimal digits, without leading zeros. */
  function NatToString(n: nat): (s: string)
    ensures |s| >= 1
    ensures forall i :: 0 <= i < |s| ==> IsDigit(s[i])
    ensures s[0] == '0' ==> s == "0"
  {
    if n < 10 then [Digit(n)] else NatToString(n / 10) + [Digit(n % 10)]
  }

  /**
   * `String(i)` for an integer: the decimal digits of its magnitude, after a minus
   * sign when it is negative.
   */
  function IntToString(i: int): (s: string)
    ensures |s| >= 1
    ensures s[0] == '-' <==> i < 0
    ensures var digits := if i < 0 then s[1..] else s;
      && digits != [] && (forall k :: 0 <= k < |digits| ==> IsDigit(digits[k]))
      && DecimalValue(digits) == (if i < 0 then -i else i)
      && (digits[0] == '0' ==> digits == "0")
  {
    var magnitude := if i < 0 then -i else i;
    DecimalRoundTrip(magnitude);
    if i < 0 then
      var s := "-" + NatToString(magnitude);
      assert s[1..] == NatToString(magnitude);
      s
    else NatToString(magnitude)
  }

  /** The number a string of decimal digits denotes. */
  function DecimalValue(s: string): nat
    requires forall i :: 0 <= i < |s| ==> IsDigit(s[i])
  {
    if s == [] then 0
    else
      assert IsDigit(s[|s| - 1]);
      DecimalValue(s[..|s| - 1]) * 10 + (s[|s| - 1] as int - '0' as int)
  }

  /** Reading back the decimal text of `n` gives `n`. */
  lemma {:induction false} DecimalRoundTrip(n: nat)
    ensures DecimalValue(NatToString(n)) == n
  {
    if n >= 10 {
      var s := NatToString(n);
      DecimalRoundTrip(n / 10);
      assert s[..|s| - 1] == NatToString(n / 10);
    }
  }
}
