/** The loosely typed values a document field can hold, together with the two
    JavaScript coercions the handler relies on: truthiness (used by `!!` and
    `||`) and string conversion (used by template literals). */
module JsValues {

  /** A field value as the handler sees it. Numbers are integral; `NaN` and the
      infinities are kept apart because they coerce differently. An object
      (a map, a timestamp, a reference, ...) is opaque apart from the text its
      own string conversion yields. */
  datatype JsValue =
    | Undefined
    | Null
    | Bool(b: bool)
    | Num(n: int)
    | NaN
    | Infinity(negative: bool)
    | Str(s: string)
    | Arr(elems: seq<JsValue>)
    | Obj(repr: string)

  /** JavaScript's ToBoolean: `undefined`, `null`, `false`, `0`, `NaN` and the
      empty string are falsy; every other value, including every array and
      every object, is truthy. */
  predicate Truthy(v: JsValue)
    ensures !Truthy(v) <==> v in [Undefined, Null, Bool(false), Num(0), NaN, Str("")]
  {
    match v
    case Undefined => false
    case Null => false
    case Bool(b) => b
    case Num(n) => n != 0
    case NaN => false
    case Infinity(_) => true
    case Str(s) => s != ""
    case Arr(_) => true
    case Obj(_) => true
  }

  /** The value of `a || b`: `a` itself when it is truthy, `b` otherwise. */
  function Or(a: JsValue, b: JsValue): (r: JsValue)
    ensures r == a || r == b
    ensures Truthy(r) <==> Truthy(a) || Truthy(b)
    ensures Truthy(a) ==> r == a
    ensures !Truthy(a) ==> r == b
  {
    if Truthy(a) then a else b
  }

  /** The value is a string with at least one character. */
  predicate IsNonEmptyString(v: JsValue) {
    v.Str? && |v.s| > 0
  }

  function DigitChar(d: nat): (c: char)
    requires d < 10
    ensures '0' <= c <= '9'
    ensures c as int - '0' as int == d
  {
    ('0' as int + d) as char
  }

  /** The decimal digits of `n`, most significant first, without leading zeros. */
  function NatToString(n: nat): (r: string)
    ensures |r| > 0
    ensures forall i :: 0 <= i < |r| ==> '0' <= r[i] <= '9'
    ensures |r| > 1 ==> r[0] != '0'
    decreases n
  {
    if n < 10 then [DigitChar(n)] else NatToString(n / 10) + [DigitChar(n % 10)]
  }

  /** The value of a string of decimal digits, read most significant first. */
  function DecimalValue(s: string): nat
    requires forall i :: 0 <= i < |s| ==> '0' <= s[i] <= '9'
  {
    if |s| == 0 then 0
    else DecimalValue(s[..|s| - 1]) * 10 + (s[|s| - 1] as int - '0' as int)
  }

  /** Reading back the digits of `n` gives `n`. */
  lemma {:induction false} NatToStringRoundTrip(n: nat)
    ensures DecimalValue(NatToString(n)) == n
    decreases n
  {
    if n >= 10 {
      var s := NatToString(n);
      assert s[..|s| - 1] == NatToString(n / 10);
      NatToStringRoundTrip(n / 10);
    }
  }

  /** Number-to-string conversion for an integral number of magnitude at
      most 2^53, where every integer is a double and JavaScript writes its
      exact decimal digits. */
  function IntToString(n: int): (r: string)
    ensures |r| > 0
    ensures n < 0 <==> r[0] == '-'
    ensures var digits := if n < 0 then r[1..] else r;
      && |digits| > 0
      && (|digits| > 1 ==> digits[0] != '0')
      && (forall i :: 0 <= i < |digits| ==> '0' <= digits[i] <= '9')
      && DecimalValue(digits) == (if n < 0 then -n else n)
  {
    NatToStringRoundTrip(if n < 0 then -n else n);
    if n < 0 then "-" + NatToString(-n) else NatToString(n)
  }

  /** JavaScript's ToString, as used by a template literal `${v}`. An array
      converts as `join(',')` of its elements' `ElementText`. */
  function ToString(v: JsValue): (r: string)
    ensures v.Str? ==> r == v.s
    ensures v.Num? ==> r == IntToString(v.n)
    ensures v.Arr? && |v.elems| == 0 ==> r == ""
    ensures v.Arr? && |v.elems| == 1 ==> r == ElementText(v.elems[0])
    decreases v, 0
  {
    match v
    case Undefined => "undefined"
    case Null => "null"
    case Bool(b) => if b then "true" else "false"
    case Num(n) => IntToString(n)
    case NaN => "NaN"
    case Infinity(negative) => if negative then "-Infinity" else "Infinity"
    case Str(s) => s
    case Arr(elems) => JoinWithComma(seq(|elems|, i requires 0 <= i < |elems| => ElementText(elems[i])))
    case Obj(repr) => repr
  }

  /** The text `join` uses for one array element: the empty string for
      `undefined` and `null`, the element's string conversion otherwise. */
  function ElementText(e: JsValue): string
    decreases e, 1
  {
    if e.Undefined? || e.Null? then "" else ToString(e)
  }

  /** The parts separated by single commas. */
  function JoinWithComma(parts: seq<string>): (r: string)
    ensures |parts| == 0 ==> r == ""
    ensures |parts| == 1 ==> r == parts[0]
    ensures |parts| > 0 ==> |r| >= |parts[0]| && r[..|parts[0]|] == parts[0]
    ensures |parts| > 0 ==> |r| >= |parts[|parts| - 1]| && r[|r| - |parts[|parts| - 1]|..] == parts[|parts| - 1]
  {
    if |parts| == 0 then ""
    else if |parts| == 1 then parts[0]
    else
      var init := parts[..|parts| - 1];
      var prefix := JoinWithComma(init);
      assert init[0] == parts[0];
      assert (prefix + "," + parts[|parts| - 1])[..|parts[0]|] == prefix[..|parts[0]|];
      prefix + "," + parts[|parts| - 1]
  }

  /** The pieces of `s` between commas, as `s.split(',')` yields them: the
      inverse of `JoinWithComma` for comma-free parts. */
  function SplitOnComma(s: string): (r: seq<string>)
    ensures |r| > 0
    decreases |s|
  {
    if |s| == 0 then [""]
    else
      var init := SplitOnComma(s[..|s| - 1]);
      if s[|s| - 1] == ',' then init + [""]
      else init[..|init| - 1] + [init[|init| - 1] + [s[|s| - 1]]]
  }

  /** A comma-free string is a single piece. */
  lemma {:induction false} SplitWithoutComma(t: string)
    requires ',' !in t
    ensures SplitOnComma(t) == [t]
    decreases |t|
  {
    if |t| > 0 {
      var n := |t| - 1;
      assert ',' !in t[..n] by {
        forall i | 0 <= i < n ensures t[..n][i] != ',' { assert t[..n][i] == t[i]; }
      }
      SplitWithoutComma(t[..n]);
      assert t[..n] + [t[n]] == t;
    }
  }

  /** Appending a comma and a comma-free piece appends that piece. */
  lemma {:induction false} SplitAfterComma(s: string, t: string)
    requires ',' !in t
    ensures SplitOnComma(s + "," + t) == SplitOnComma(s) + [t]
    decreases |t|
  {
    var u := s + "," + t;
    if |t| == 0 {
      assert u == s + ",";
      assert u[..|u| - 1] == s;
    } else {
      var n := |t| - 1;
      assert ',' !in t[..n] by {
        forall i | 0 <= i < n ensures t[..n][i] != ',' { assert t[..n][i] == t[i]; }
      }
      SplitAfterComma(s, t[..n]);
      assert u[..|u| - 1] == s + "," + t[..n];
      assert u[|u| - 1] == t[n];
      assert t[..n] + [t[n]] == t;
    }
  }

  /** Splitting the joined text of a non-empty list of parts on commas gives
      back the parts, when no part holds a comma. */
  lemma {:induction false} JoinThenSplit(parts: seq<string>)
    requires |parts| > 0
    requires forall i :: 0 <= i < |parts| ==> ',' !in parts[i]
    ensures SplitOnComma(JoinWithComma(parts)) == parts
    decreases |parts|
  {
    if |parts| == 1 {
      SplitWithoutComma(parts[0]);
    } else {
      var init := parts[..|parts| - 1];
      JoinThenSplit(init);
      SplitAfterComma(JoinWithComma(init), parts[|parts| - 1]);
      assert init + [parts[|parts| - 1]] == parts;
    }
  }

  /** The text of a non-empty array whose element texts hold no comma splits
      back into those element texts, one per element, in order. */
  lemma ArrayTextSplits(elems: seq<JsValue>)
    requires |elems| > 0
    requires forall i :: 0 <= i < |elems| ==> ',' !in ElementText(elems[i])
    ensures SplitOnComma(ToString(Arr(elems))) == seq(|elems|, i requires 0 <= i < |elems| => ElementText(elems[i]))
  {
    JoinThenSplit(seq(|elems|, i requires 0 <= i < |elems| => ElementText(elems[i])));
  }

}
