/** The small part of Ruby's object model that the cache façade relies on:
    values and their truthiness, `to_s` and `inspect`, `is_a?(Numeric)`,
    an options Hash keyed by symbols, `String#split.last`, a substring
    test, and the exceptions that cross the façade. */
module Ruby {

  datatype Option<+T> = None | Some(value: T) {
    function GetOr(default: T): T {
      match this
      case Some(v) => v
      case None => default
    }
  }

  datatype Result<+T, +E> = Success(value: T) | Failure(error: E)

  /** A Ruby object as the cache sees it. A Float is identified by its
      printed form; any other object carries its class name, its `to_s`,
      its `inspect`, and what it answers to `is_a?(Numeric)` (true for a
      Rational or a BigDecimal, and for a Duration such as `5.minutes`,
      which forwards the question to its Integer). */
  datatype Value =
    | Nil
    | Bool(b: bool)
    | Int(i: int)
    | Float(printed: string)
    | Str(s: string)
    | Obj(className: string, text: string, inspected: string, numeric: bool)

  /** The exceptions the façade raises or rescues. */
  datatype Exception =
    | MemCacheError(message: string)
    | ArgumentError(message: string)
    | RuntimeError(message: string)

  /** Only `nil` and `false` are falsy in Ruby. */
  predicate Truthy(v: Value) {
    !(v.Nil? || v == Bool(false))
  }

  /** `v.is_a?(Numeric)` */
  predicate IsNumeric(v: Value) {
    v.Int? || v.Float? || (v.Obj? && v.numeric)
  }

  // ---------------------------------------------------------------------
  // Integer#to_s and its inverse

  predicate IsDigit(c: char) {
    '0' <= c <= '9'
  }

  predicate AllDigits(s: string) {
    forall i | 0 <= i < |s| :: IsDigit(s[i])
  }

  function DigitChar(d: nat): (c: char)
    requires d < 10
    ensures IsDigit(c) && c as int - '0' as int == d
  {
    (d + '0' as int) as char
  }

  function DigitValue(c: char): nat
    requires IsDigit(c)
  {
    c as int - '0' as int
  }

  /** The decimal digits of `n`, most significant first, without leading zeros. */
  function NatString(n: nat): (s: string)
    ensures |s| > 0 && AllDigits(s)
    ensures (s[0] == '0') == (n == 0)
    decreases n
  {
    if n < 10 then [DigitChar(n)] else NatString(n / 10) + [DigitChar(n % 10)]
  }

  /** The number a string of decimal digits denotes. */
  function DigitsValue(s: string): nat
    requires AllDigits(s)
    decreases |s|
  {
    if s == [] then 0 else DigitsValue(s[..|s| - 1]) * 10 + DigitValue(s[|s| - 1])
  }

  /** `Integer#to_s` */
  function DecimalString(n: int): string {
    if n < 0 then "-" + NatString(-n) else NatString(n)
  }

  /** Reads back an optionally signed decimal numeral. */
  function DecimalValue(s: string): Option<int> {
    if |s| > 1 && s[0] == '-' && AllDigits(s[1..]) then Some(-(DigitsValue(s[1..]) as int))
    else if |s| > 0 && AllDigits(s) then Some(DigitsValue(s))
    else None
  }

  lemma {:induction false} NatStringValue(n: nat)
    ensures DigitsValue(NatString(n)) == n
    decreases n
  {
    var s := NatString(n);
    if n >= 10 {
      NatStringValue(n / 10);
      assert s[..|s| - 1] == NatString(n / 10);
    }
  }

  /** `Integer#to_s` loses nothing: the numeral reads back as the number. */
  lemma DecimalRoundTrip(n: int)
    ensures DecimalValue(DecimalString(n)) == Some(n)
  {
    var s := DecimalString(n);
    if n < 0 {
      NatStringValue(-n);
      assert s[1..] == NatString(-n);
    } else {
      NatStringValue(n);
      assert s[0] != '-';
    }
  }

  /** Distinct integers have distinct `to_s`. */
  lemma DecimalStringInjective(m: int, n: int)
    requires DecimalString(m) == DecimalString(n)
    ensures m == n
  {
    DecimalRoundTrip(m);
    DecimalRoundTrip(n);
  }

  // ---------------------------------------------------------------------
  // to_s and inspect

  /** `String#inspect` escaping of one character. */
  function EscapeChar(c: char): string {
    if c == '"' then "\\\""
    else if c == '\\' then "\\\\"
    else if c == '\n' then "\\n"
    else if c == '\r' then "\\r"
    else if c == '\t' then "\\t"
    else [c]
  }

  function Escape(s: string): string
    decreases |s|
  {
    if s == [] then "" else EscapeChar(s[0]) + Escape(s[1..])
  }

  /** `v.to_s` */
  function ToS(v: Value): string {
    match v
    case Nil => ""
    case Bool(b) => if b then "true" else "false"
    case Int(i) => DecimalString(i)
    case Float(p) => p
    case Str(s) => s
    case Obj(_, text, _, _) => text
  }

  /** `v.inspect` */
  function Inspect(v: Value): string {
    match v
    case Nil => "nil"
    case Bool(b) => if b then "true" else "false"
    case Int(i) => DecimalString(i)
    case Float(p) => p
    case Str(s) => "\"" + Escape(s) + "\""
    case Obj(_, _, inspected, _) => inspected
  }

  // ---------------------------------------------------------------------
  // The options Hash: symbol names to values, in insertion order

  type Options = seq<(string, Value)>

  /** `options[:key]`: the value stored under the symbol, nil when absent. */
  function Lookup(o: Options, key: string): Value
    decreases |o|
  {
    if o == [] then Nil
    else if o[0].0 == key then o[0].1
    else Lookup(o[1..], key)
  }

  /** `options[:key]` used as a condition. */
  predicate Flag(o: Options, key: string) {
    Truthy(Lookup(o, key))
  }

  /** `options.merge(:key => v)`: a new Hash in which `key` maps to `v`. */
  function Merge(o: Options, key: string, v: Value): (r: Options)
    ensures |r| == |o| || |r| == |o| + 1
    decreases |o|
  {
    if o == [] then [(key, v)]
    else if o[0].0 == key then [(key, v)] + o[1..]
    else [o[0]] + Merge(o[1..], key, v)
  }

  lemma {:induction false} MergeLookup(o: Options, key: string, v: Value, other: string)
    ensures Lookup(Merge(o, key, v), key) == v
    ensures other != key ==> Lookup(Merge(o, key, v), other) == Lookup(o, other)
    decreases |o|
  {
    if o != [] && o[0].0 != key {
      MergeLookup(o[1..], key, v, other);
    }
  }

  function InspectPairs(o: Options): string
    decreases |o|
  {
    if o == [] then ""
    else if |o| == 1 then ":" + o[0].0 + "=>" + Inspect(o[0].1)
    else ":" + o[0].0 + "=>" + Inspect(o[0].1) + ", " + InspectPairs(o[1..])
  }

  /** `Hash#inspect`: `{:quiet=>true, :expires_in=>60}`. */
  function InspectOptions(o: Options): (r: string)
    ensures |r| >= 2 && r[0] == '{' && r[|r| - 1] == '}'
    ensures o == [] <==> r == "{}"
  {
    assert o != [] ==> InspectPairs(o)[0] == ':';
    "{" + InspectPairs(o) + "}"
  }

  // ---------------------------------------------------------------------
  // Strings

  /** `s.include?(sub)`, or a match of the literal pattern `/sub/`. */
  predicate Contains(s: string, sub: string)
    decreases |s|
  {
    sub <= s || (s != [] && Contains(s[1..], sub))
  }

  /** Whitespace as `String#split` with no argument understands it. */
  predicate IsSpace(c: char) {
    c == ' ' || c == '\t' || c == '\n' || c == '\U{000B}' || c == '\U{000C}' || c == '\r'
  }

  predicate NoSpace(s: string) {
    forall i | 0 <= i < |s| :: !IsSpace(s[i])
  }

  predicate AllSpace(s: string) {
    forall i | 0 <= i < |s| :: IsSpace(s[i])
  }

  /** `s` without its trailing whitespace. */
  function TrimEnd(s: string): (r: string)
    ensures |r| <= |s| && r == s[..|r|] && AllSpace(s[|r|..])
    ensures r == [] || !IsSpace(r[|r| - 1])
    decreases |s|
  {
    if s != [] && IsSpace(s[|s| - 1]) then TrimEnd(s[..|s| - 1]) else s
  }

  /** The longest run of non-whitespace at the end of `s`. */
  function TrailingWord(s: string): (r: string)
    ensures |r| <= |s| && r == s[|s| - |r|..] && NoSpace(r)
    ensures |r| == |s| || IsSpace(s[|s| - |r| - 1])
    decreases |s|
  {
    if s != [] && !IsSpace(s[|s| - 1]) then TrailingWord(s[..|s| - 1]) + [s[|s| - 1]] else ""
  }

  /** `s.split.last`: the last whitespace-separated word, nil when there is none. */
  function LastWord(s: string): (r: Option<string>)
    ensures r.None? <==> AllSpace(s)
    ensures r.Some? ==> |r.value| > 0 && NoSpace(r.value)
  {
    var t := TrimEnd(s);
    if t == [] then
      assert s == s[|t|..];
      None
    else
      assert !AllSpace(s) by { assert !IsSpace(s[|t| - 1]); }
      Some(TrailingWord(t))
  }

  lemma TrimEndSplit(s: string)
    ensures s == TrimEnd(s) + s[|TrimEnd(s)|..]
  {
    var t := TrimEnd(s);
    assert s[..|t|] == t;
  }

  lemma TrailingWordSplit(t: string)
    ensures t == t[..|t| - |TrailingWord(t)|] + TrailingWord(t)
  {
    var w := TrailingWord(t);
    assert t[|t| - |w|..] == w;
  }

  /** The word `split.last` finds is a whole word: what precedes it ends
      in whitespace (or is empty) and only whitespace follows it. */
  lemma LastWordIsWholeWord(s: string) returns (before: string, after: string)
    requires !AllSpace(s)
    ensures s == before + LastWord(s).value + after
    ensures before == [] || IsSpace(before[|before| - 1])
    ensures AllSpace(after)
  {
    var t := TrimEnd(s);
    var w := TrailingWord(t);
    before, after := t[..|t| - |w|], s[|t|..];
    TrimEndSplit(s);
    TrailingWordSplit(t);
    assert s == (before + w) + after;
    assert before != [] ==> before[|before| - 1] == t[|t| - |w| - 1];
  }
}
