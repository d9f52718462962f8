/**
 * The parts of JavaScript's value semantics that the application relies on:
 * parsed JSON values, truthiness (`||`, `!x`), property reads, the `in`
 * operator, `.length`, `for ... of`, template-literal stringification, and a
 * few `String.prototype` methods (`trim`, `indexOf`, `includes`,
 * `toLowerCase`, `split('.').pop()`).
 */
module JsRuntime {

  datatype Option<+T> = None | Some(value: T)

  /** A value, or an `Error` that was thrown, carrying its `message`. */
  datatype Result<+T> = Ok(value: T) | Err(message: string) {
    predicate IsFailure() { Err? }
    function PropagateFailure<U>(): Result<U>
      requires Err?
    {
      Err(message)
    }
    function Extract(): T
      requires Ok?
    {
      value
    }
  }

  /**
   * A value as `JSON.parse` produces it. A number is kept as the string that
   * JavaScript's `Number.prototype.toString` gives for it ("0" for both zeros),
   * which is all the application ever observes of a parsed number.
   */
  datatype Json =
    | JNull
    | JBool(b: bool)
    | JNum(text: string)
    | JStr(s: string)
    | JArr(items: seq<Json>)
    | JObj(fields: map<string, Json>)

  /** A JavaScript slot: `None` is `undefined`. */
  type Value = Option<Json>

  // Messages of the TypeErrors the runtime throws (V8's wording).
  function ReadError(of: string, key: string): string {
    "Cannot read properties of " + of + " (reading '" + key + "')"
  }
  function InError(key: string): string {
    "Cannot use 'in' operator to search for '" + key + "'"
  }
  const NOT_ITERABLE := "object is not iterable"
  function NotAFunction(name: string): string { name + " is not a function" }

  /** JavaScript truthiness: `undefined`, `null`, `false`, `0` and `""` are falsy. */
  predicate Truthy(v: Value) {
    match v
    case None => false
    case Some(j) =>
      match j
      case JNull => false
      case JBool(b) => b
      case JNum(t) => t != "0"
      case JStr(s) => s != ""
      case JArr(_) => true
      case JObj(_) => true
  }

  /** `v || d` */
  function Or(v: Value, d: Json): (r: Json)
    ensures Truthy(v) ==> Some(r) == v
    ensures !Truthy(v) ==> r == d
  {
    if Truthy(v) then v.value else d
  }

  /** `s || d` for a string `s`: `d` exactly when `s` is empty. */
  lemma OrString(s: string, d: Json)
    ensures Or(Some(JStr(s)), d) == if s != "" then JStr(s) else d
  {
  }

  /**
   * `v.key` for a defined value. Reading a property of `null` throws; a
   * primitive or an array has none of the named keys the application reads,
   * and an object has exactly its own keys (none of the keys read is
   * inherited from `Object.prototype`).
   */
  function Member(v: Json, key: string): (r: Result<Value>)
    ensures r.Err? <==> v.JNull?
    ensures v.JObj? ==> r == Ok(if key in v.fields then Some(v.fields[key]) else None)
  {
    match v
    case JNull => Err(ReadError("null", key))
    case JObj(m) => Ok(if key in m then Some(m[key]) else None)
    case _ => Ok(None)
  }

  /** `v.key` where `v` may be `undefined`. */
  function MemberOf(v: Value, key: string): Result<Value> {
    match v
    case None => Err(ReadError("undefined", key))
    case Some(j) => Member(j, key)
  }

  /** `v?.key`: `undefined` when `v` is `null` or `undefined`. */
  function OptionalMember(v: Value, key: string): Value {
    match v
    case None => None
    case Some(JNull) => None
    case Some(JObj(m)) => if key in m then Some(m[key]) else None
    case Some(_) => None
  }

  /** `key in v`: an own key of an object; `false` for an array; a TypeError for anything else. */
  function HasKey(key: string, v: Value): (r: Result<bool>)
    ensures r.Err? <==> !(v.Some? && (v.value.JObj? || v.value.JArr?))
  {
    match v
    case Some(JObj(m)) => Ok(key in m)
    case Some(JArr(_)) => Ok(false)
    case _ => Err(InError(key))
  }

  predicate IsArray(v: Value) { v.Some? && v.value.JArr? }

  /** `v.length` of a string or an array; `undefined` for every other value. */
  function LengthOf(v: Value): Option<nat> {
    match v
    case Some(JStr(s)) => Some(|s|)
    case Some(JArr(a)) => Some(|a|)
    case _ => None
  }

  /** `v?.length || 0` */
  function LengthOr0(v: Value): nat {
    match LengthOf(v)
    case Some(n) => n
    case None => 0
  }

  /** What `for (const x of v)` visits: array elements, or one-character strings of a string. */
  function Iterate(v: Json): (r: Result<seq<Json>>)
    ensures v.JArr? ==> r == Ok(v.items)
    ensures r.Err? <==> !(v.JArr? || v.JStr?)
  {
    match v
    case JArr(a) => Ok(a)
    case JStr(s) => Ok(seq(|s|, i requires 0 <= i < |s| => JStr([s[i]])))
    case _ => Err(NOT_ITERABLE)
  }

  /** `${v}` in a template literal. */
  function Interpolate(v: Value): string {
    match v
    case None => "undefined"
    case Some(j) => JsString(j)
  }

  /** `String(j)` for a parsed JSON value; arrays join their elements with ",". */
  function JsString(j: Json): string {
    match j
    case JNull => "null"
    case JBool(b) => if b then "true" else "false"
    case JNum(t) => t
    case JStr(s) => s
    case JArr(a) => JoinElements(a)
    case JObj(_) => "[object Object]"
  }

  function JoinElements(a: seq<Json>): string
    decreases a
  {
    if a == [] then ""
    else
      var first := if a[0].JNull? then "" else JsString(a[0]);
      if |a| == 1 then first else first + "," + JoinElements(a[1..])
  }

  // ---------------------------------------------------------------
  // Strings
  // ---------------------------------------------------------------

  /** `toLowerCase` on the ASCII letters (the only cased letters in the strings compared). */
  function LowerChar(c: char): char {
    if 'A' <= c <= 'Z' then (c as int + 32) as char else c
  }

  function Lower(s: string): (r: string)
    ensures |r| == |s|
    ensures forall i :: 0 <= i < |s| ==> r[i] == LowerChar(s[i])
  {
    seq(|s|, i requires 0 <= i < |s| => LowerChar(s[i]))
  }

  predicate OccursAt(s: string, pat: string, k: nat) {
    k + |pat| <= |s| && s[k..k + |pat|] == pat
  }

  predicate StartsWith(s: string, prefix: string) { OccursAt(s, prefix, 0) }

  /** `s.includes(sub)` */
  predicate Contains(s: string, sub: string) {
    exists k: nat | k <= |s| :: OccursAt(s, sub, k)
  }

  /** `s.indexOf(pat, from)`, with `None` for -1. */
  function IndexOf(s: string, pat: string, from: nat): (r: Option<nat>)
    ensures r.Some? ==> from <= r.value && OccursAt(s, pat, r.value)
    ensures r.Some? ==> forall k: nat :: from <= k < r.value ==> !OccursAt(s, pat, k)
    ensures r.None? ==> forall k: nat :: from <= k ==> !OccursAt(s, pat, k)
    decreases |s| - from
  {
    if from + |pat| > |s| then None
    else if OccursAt(s, pat, from) then Some(from)
    else IndexOf(s, pat, from + 1)
  }

  /** `s.lastIndexOf(c)`, with `None` for -1. */
  function LastIndexOf(s: string, c: char): (r: Option<nat>)
    ensures r.Some? ==> r.value < |s| && s[r.value] == c && forall k :: r.value < k < |s| ==> s[k] != c
    ensures r.None? ==> forall k :: 0 <= k < |s| ==> s[k] != c
  {
    if s == [] then None
    else if s[|s| - 1] == c then Some(|s| - 1)
    else LastIndexOf(s[..|s| - 1], c)
  }

  /** `name.split('.').pop()`: the text after the last '.', or all of it when there is none. */
  function LastSegment(name: string): (r: string)
    ensures '.' !in r
    ensures |r| <= |name| && r == name[|name| - |r|..]
    ensures |r| < |name| ==> name[|name| - |r| - 1] == '.'
  {
    match LastIndexOf(name, '.')
    case None => name
    case Some(k) => name[k + 1..]
  }

  /**
   * ECMAScript's WhiteSpace and LineTerminator code points: what `trim` removes
   * and what `\s` matches in a regular expression.
   */
  predicate IsWhite(c: char) {
    var n := c as int;
    (0x09 <= n <= 0x0D) || n == 0x20 || n == 0xA0 || n == 0x1680
    || (0x2000 <= n <= 0x200A) || n == 0x2028 || n == 0x2029 || n == 0x202F
    || n == 0x205F || n == 0x3000 || n == 0xFEFF
  }

  function TrimStart(s: string): (r: string)
    ensures |r| <= |s| && r == s[|s| - |r|..]
    ensures forall k :: 0 <= k < |s| - |r| ==> IsWhite(s[k])
    ensures r != [] ==> !IsWhite(r[0])
  {
    if s != [] && IsWhite(s[0]) then TrimStart(s[1..]) else s
  }

  function TrimEnd(s: string): (r: string)
    ensures |r| <= |s| && r == s[..|r|]
    ensures forall k :: |r| <= k < |s| ==> IsWhite(s[k])
    ensures r != [] ==> !IsWhite(r[|r| - 1])
  {
    if s != [] && IsWhite(s[|s| - 1]) then TrimEnd(s[..|s| - 1]) else s
  }

  /** `s.trim()` */
  function Trim(s: string): string {
    TrimEnd(TrimStart(s))
  }

  /** Decimal digits of a natural number, as `String(n)` writes them. */
  function NatToString(n: nat): (r: string)
    ensures r != []
    ensures forall k :: 0 <= k < |r| ==> '0' <= r[k] <= '9'
  {
    if n < 10 then [('0' as int + n) as char]
    else NatToString(n / 10) + [('0' as int + n % 10) as char]
  }

  predicate AllDigits(s: string) {
    forall k | 0 <= k < |s| :: '0' <= s[k] <= '9'
  }

  /** The value of a string of decimal digits. */
  function DigitsValue(s: string): nat
    requires AllDigits(s)
  {
    if s == [] then 0 else DigitsValue(s[..|s| - 1]) * 10 + (s[|s| - 1] as int - '0' as int)
  }

  /** The value of `c` as a digit of a number written in base 2 to 36: '0'-'9', then letters of either case. */
  function DigitOf(c: char): Option<nat> {
    if '0' <= c <= '9' then Some(c as int - '0' as int)
    else if 'a' <= c <= 'z' then Some(c as int - 'a' as int + 10)
    else if 'A' <= c <= 'Z' then Some(c as int - 'A' as int + 10)
    else None
  }

  predicate AllRadixDigits(s: string, radix: nat) {
    forall k | 0 <= k < |s| :: DigitOf(s[k]).Some? && DigitOf(s[k]).value < radix
  }

  /** The value of a string of digits of base `radix`. */
  function RadixValue(s: string, radix: nat): nat
    requires AllRadixDigits(s, radix)
  {
    if s == [] then 0 else RadixValue(s[..|s| - 1], radix) * radix + DigitOf(s[|s| - 1]).value
  }

  /** The base a "0x", "0o" or "0b" prefix (either case) announces. */
  function PrefixRadix(c: char): Option<nat> {
    if c == 'x' || c == 'X' then Some(16)
    else if c == 'o' || c == 'O' then Some(8)
    else if c == 'b' || c == 'B' then Some(2)
    else None
  }

  /**
   * `Number(v)` for the strings that denote integers: surrounding white space
   * is ignored, an empty string is 0, an optional sign precedes decimal
   * digits, and "0x", "0o" or "0b" (either case, with no sign) precede
   * hexadecimal, octal or binary digits. `None` stands for `NaN` (including
   * `Number(undefined)`).
   */
  function NumberOf(v: Option<string>): (r: Option<int>)
    ensures v.Some? && Trim(v.value) == "" ==> r == Some(0)
  {
    if v.None? then None
    else
      var t := Trim(v.value);
      if t == "" then Some(0)
      else if |t| > 2 && t[0] == '0' && PrefixRadix(t[1]).Some? then
        var digits := t[2..];
        if AllRadixDigits(digits, PrefixRadix(t[1]).value) then Some(RadixValue(digits, PrefixRadix(t[1]).value)) else None
      else
        var negative := t[0] == '-';
        var digits := if t[0] == '-' || t[0] == '+' then t[1..] else t;
        if digits != "" && AllDigits(digits) then Some(if negative then -(DigitsValue(digits) as int) else DigitsValue(digits))
        else None
  }

  lemma {:induction false} DigitsOfNat(n: nat)
    ensures AllDigits(NatToString(n)) && DigitsValue(NatToString(n)) == n
  {
    if n >= 10 {
      DigitsOfNat(n / 10);
      var s := NatToString(n);
      assert s[..|s| - 1] == NatToString(n / 10);
    }
  }

  /** A non-empty string of digits has no white space to trim. */
  lemma TrimDigits(s: string)
    requires s != [] && AllDigits(s)
    ensures Trim(s) == s
  {
    assert !IsWhite(s[0]) && !IsWhite(s[|s| - 1]);
    assert TrimStart(s) == s;
  }

  /** `Number` reads a non-empty, unsigned string of digits as its decimal value. */
  lemma NumberOfDigits(s: string)
    requires s != [] && AllDigits(s)
    ensures NumberOf(Some(s)) == Some(DigitsValue(s))
  {
    TrimDigits(s);
    assert s[0] != '-' && s[0] != '+';
  }

  /** A string that neither starts nor ends with white space is its own trim. */
  lemma TrimNonWhite(s: string)
    requires s != [] && !IsWhite(s[0]) && !IsWhite(s[|s| - 1])
    ensures Trim(s) == s
  {
    assert TrimStart(s) == s;
  }

  /**
   * `Number` reads "0x", "0o" or "0b" followed by digits of that base as their
   * value, and a sign in front of the prefix makes it `NaN`.
   */
  lemma NumberOfPrefixed(prefix: char, digits: string)
    requires PrefixRadix(prefix).Some? && digits != [] && AllRadixDigits(digits, PrefixRadix(prefix).value)
    ensures NumberOf(Some(['0', prefix] + digits)) == Some(RadixValue(digits, PrefixRadix(prefix).value))
    ensures NumberOf(Some(['-', '0', prefix] + digits)) == None
    ensures NumberOf(Some(['+', '0', prefix] + digits)) == None
  {
    var last := digits[|digits| - 1];
    assert DigitOf(last).Some?;
    var t := ['0', prefix] + digits;
    assert t[|t| - 1] == last;
    TrimNonWhite(t);
    assert t[2..] == digits;
    PrefixedValue(t);
    SignedPrefixNaN('-', prefix, digits);
    SignedPrefixNaN('+', prefix, digits);
  }

  lemma PrefixedValue(t: string)
    requires |t| > 2 && t[0] == '0' && PrefixRadix(t[1]).Some? && AllRadixDigits(t[2..], PrefixRadix(t[1]).value)
    requires Trim(t) == t
    ensures NumberOf(Some(t)) == Some(RadixValue(t[2..], PrefixRadix(t[1]).value))
  {
  }

  lemma SignedPrefixNaN(sign: char, prefix: char, digits: string)
    requires sign == '-' || sign == '+'
    requires PrefixRadix(prefix).Some? && digits != [] && DigitOf(digits[|digits| - 1]).Some?
    ensures NumberOf(Some([sign, '0', prefix] + digits)) == None
  {
    var u := [sign, '0', prefix] + digits;
    assert u[|u| - 1] == digits[|digits| - 1];
    TrimNonWhite(u);
    assert u[1..][1] == prefix;
    assert !('0' <= prefix <= '9');
  }

  /** `Number(String(n))` gives `n` back. */
  lemma NumberOfNatToString(n: nat)
    ensures NumberOf(Some(NatToString(n))) == Some(n)
  {
    DigitsOfNat(n);
    NumberOfDigits(NatToString(n));
  }

  /** `String(i)` for an integer. */
  function IntToString(i: int): string {
    if i < 0 then "-" + NatToString(-i) else NatToString(i)
  }

  /**
   * `xs.find(x => key(x) === k)`: the first element whose key is `k`, or
   * `undefined` when there is none.
   */
  function FindByKey<T>(xs: seq<T>, key: T -> string, k: string): (r: Option<T>)
    ensures r.Some? ==> exists i :: 0 <= i < |xs| && xs[i] == r.value && key(xs[i]) == k &&
                                 forall j :: 0 <= j < i ==> key(xs[j]) != k
    ensures r.None? <==> forall i :: 0 <= i < |xs| ==> key(xs[i]) != k
  {
    if xs == [] then None
    else if key(xs[0]) == k then Some(xs[0])
    else
      var rest := FindByKey(xs[1..], key, k);
      assert forall i :: 1 <= i < |xs| ==> xs[i] == xs[1..][i - 1];
      rest
  }

  /** When exactly one element carries key `k`, `find` returns that element. */
  lemma FindUniqueKey<T>(xs: seq<T>, key: T -> string, i: nat)
    requires i < |xs|
    requires forall j :: 0 <= j < |xs| && j != i ==> key(xs[j]) != key(xs[i])
    ensures FindByKey(xs, key, key(xs[i])) == Some(xs[i])
  {
    var r := FindByKey(xs, key, key(xs[i]));
    assert r.Some?;
    var w :| 0 <= w < |xs| && xs[w] == r.value && key(xs[w]) == key(xs[i]) &&
             forall j :: 0 <= j < w ==> key(xs[j]) != key(xs[i]);
    assert w == i;
  }

  /** `[a, b, ...].join(sep)` */
  function Join(parts: seq<string>, sep: string): string {
    if parts == [] then ""
    else if |parts| == 1 then parts[0]
    else parts[0] + sep + Join(parts[1..], sep)
  }

  /** `[x, ...xs].join(sep)`: the first part, then the separator and the rest when there is a rest. */
  lemma JoinCons(x: string, xs: seq<string>, sep: string)
    ensures Join([x] + xs, sep) == if xs == [] then x else x + sep + Join(xs, sep)
  {
    assert ([x] + xs)[1..] == xs;
  }

  /** Every part appears in the joined string. */
  lemma {:induction false} JoinContainsParts(parts: seq<string>, sep: string, i: nat)
    requires i < |parts|
    ensures Contains(Join(parts, sep), parts[i])
  {
    var s := Join(parts, sep);
    if i == 0 {
      assert OccursAt(s, parts[0], 0);
    } else {
      JoinContainsParts(parts[1..], sep, i - 1);
      var rest := Join(parts[1..], sep);
      var k: nat :| k <= |rest| && OccursAt(rest, parts[1..][i - 1], k);
      var at := |parts[0]| + |sep| + k;
      assert s == parts[0] + sep + rest;
      assert s[at..at + |parts[i]|] == rest[k..k + |parts[i]|];
      assert OccursAt(s, parts[i], at);
    }
  }

  /**
   * Editing, by `f`, the elements whose key is `k` while keeping every key
   * makes `find` return the edited form of what it returned before.
   */
  lemma {:induction false} FindAfterEdit<T>(xs: seq<T>, ys: seq<T>, key: T -> string, k: string, f: T -> T)
    requires |ys| == |xs|
    requires forall i :: 0 <= i < |xs| ==> key(ys[i]) == key(xs[i])
    requires forall i :: 0 <= i < |xs| && key(xs[i]) == k ==> ys[i] == f(xs[i])
    ensures FindByKey(ys, key, k) == if FindByKey(xs, key, k).Some? then Some(f(FindByKey(xs, key, k).value)) else None
  {
    if xs != [] && key(xs[0]) != k {
      assert forall i :: 1 <= i < |xs| ==> xs[i] == xs[1..][i - 1] && ys[i] == ys[1..][i - 1];
      FindAfterEdit(xs[1..], ys[1..], key, k, f);
    }
  }
}
