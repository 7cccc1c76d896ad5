/** The parts of JavaScript's value model and of String.prototype that the
    plugin relies on: values as decoded from JSON, property access, string
    and number conversion, truthiness, and the string methods indexOf,
    slice, split and replace, with the clamping of positions and the -1 for
    "not found" that the language gives them. Strings are sequences of
    characters, not of UTF-16 code units. */
module Js {

  datatype Option<+T> = None | Some(value: T)

  /** The exceptions the plugin's code can raise. */
  datatype JsError = TypeError | SyntaxError

  /** The result of JavaScript code that either returns a value or throws. */
  datatype Outcome<+T> = Ok(value: T) | Thrown(error: JsError) {
    predicate IsFailure() {
      Thrown?
    }

    function PropagateFailure<U>(): Outcome<U>
      requires Thrown?
    {
      Thrown(error)
    }

    function Extract(): T
      requires Ok?
    {
      value
    }
  }

  /** A JavaScript value. Numbers are integers here; objects map property
      names to values (property order is not modelled). */
  datatype Value =
    | Undefined
    | Null
    | Bool(b: bool)
    | Num(n: int)
    | Str(s: string)
    | Arr(elems: seq<Value>)
    | Obj(props: map<string, Value>)

  /** A property lookup in an object's table: a missing property is undefined. */
  function Prop(props: map<string, Value>, key: string): Value
  {
    if key in props then props[key] else Undefined
  }

  /** The value of `v.key` for a value that is neither undefined nor null.
      The keys the plugin reads are not built-in properties of primitives or
      arrays, so there they are undefined. */
  function Get(v: Value, key: string): Value
  {
    match v
    case Obj(props) => Prop(props, key)
    case _ => Undefined
  }

  predicate Nullish(v: Value)
  {
    v.Undefined? || v.Null?
  }

  /** `v.key`: reading a property of undefined or null throws a TypeError. */
  function Member(v: Value, key: string): (r: Outcome<Value>)
    ensures r.Thrown? <==> Nullish(v)
    ensures r.Thrown? ==> r.error == TypeError
    ensures r.Ok? ==> r.value == Get(v, key)
  {
    if Nullish(v) then Thrown(TypeError) else Ok(Get(v, key))
  }

  /** JavaScript truthiness, as used by `if (v)`: exactly undefined, null,
      false, 0 and the empty string are falsy. */
  predicate Truthy(v: Value)
    ensures Truthy(v) <==> !(Nullish(v) || v == Bool(false) || v == Num(0) || v == Str(""))
  {
    match v
    case Undefined => false
    case Null => false
    case Bool(b) => b
    case Num(n) => n != 0
    case Str(s) => s != ""
    case Arr(_) => true
    case Obj(_) => true
  }

  predicate IsDigit(c: char)
  {
    '0' <= c <= '9'
  }

  function DigitChar(d: nat): (c: char)
    requires d < 10
    ensures IsDigit(c) && c as int - '0' as int == d
  {
    ('0' as int + d) as char
  }

  /** The decimal numeral of a natural number, as Number.prototype.toString
      writes it: digits only, no leading zero. */
  function Decimal(n: nat): (r: string)
    ensures |r| >= 1
    ensures forall i :: 0 <= i < |r| ==> IsDigit(r[i])
    ensures r[0] == '0' ==> n == 0
    decreases n
  {
    if n < 10 then [DigitChar(n)] else Decimal(n / 10) + [DigitChar(n % 10)]
  }

  /** The number a string of digits denotes. */
  function DecimalValue(r: string): int
    decreases |r|
  {
    if r == [] then 0
    else DecimalValue(r[..|r| - 1]) * 10 + (r[|r| - 1] as int - '0' as int)
  }

  /** Reading a numeral back gives its number. */
  lemma {:induction false} DecimalRoundTrip(n: nat)
    ensures DecimalValue(Decimal(n)) == n
    decreases n
  {
    if n >= 10 {
      var r := Decimal(n);
      assert r[..|r| - 1] == Decimal(n / 10);
      DecimalRoundTrip(n / 10);
    }
  }

  /** An element's contribution to Array.prototype.join: undefined and null
      become the empty string. */
  function ElementString(e: Value): (r: Outcome<string>)
    ensures r.Thrown? ==> r.error == TypeError
    decreases e, 3
  {
    if Nullish(e) then Ok("") else ToStr(e)
  }

  /** The conversion to a string that `+` applies when one operand is a
      string. An object converts through its `valueOf` and `toString`
      methods. A decoded object inherits both, and `valueOf` gives back the
      object, so `toString` decides. An own `toString` property of a decoded
      object holds data, which cannot be called, so the conversion throws a
      TypeError. */
  function ToStr(v: Value): (r: Outcome<string>)
    ensures r.Thrown? ==> r.error == TypeError
    ensures v.Str? ==> r == Ok(v.s)
    ensures v.Num? && v.n >= 0 ==> r == Ok(Decimal(v.n))
    ensures v.Obj? ==> (r.Thrown? <==> "toString" in v.props)
    ensures !v.Arr? && !v.Obj? ==> r.Ok?
    decreases v, 2
  {
    match v
    case Undefined => Ok("undefined")
    case Null => Ok("null")
    case Bool(b) => Ok(if b then "true" else "false")
    case Num(n) => Ok(if n < 0 then "-" + Decimal(-n) else Decimal(n))
    case Str(s) => Ok(s)
    case Arr(es) => ArrayJoin(v, es)
    case Obj(props) => if "toString" in props then Thrown(TypeError) else Ok("[object Object]")
  }

  /** `es.join(",")` for the elements of the array value `whole`. */
  function ArrayJoin(ghost whole: Value, es: seq<Value>): (r: Outcome<string>)
    requires forall i :: 0 <= i < |es| ==> es[i] < whole
    ensures r.Thrown? ==> r.error == TypeError
    decreases whole, 1, |es|
  {
    if es == [] then Ok("")
    else if |es| == 1 then ElementString(es[0])
    else
      var first :- ElementString(es[0]);
      var rest :- ArrayJoin(whole, es[1..]);
      Ok(first + "," + rest)
  }

  /** The white space and line terminators that the conversion of a string
      to a number ignores at either end. */
  predicate IsJsSpace(c: char)
  {
    c == '\t' || c == '\n' || c == '\U{000B}' || c == '\U{000C}' || c == '\r' || c == ' ' ||
    c == '\U{00A0}' || c == '\U{1680}' || ('\U{2000}' <= c <= '\U{200A}') ||
    c == '\U{2028}' || c == '\U{2029}' || c == '\U{202F}' || c == '\U{205F}' ||
    c == '\U{3000}' || c == '\U{FEFF}'
  }

  function TrimStart(s: string): string
  {
    if s != [] && IsJsSpace(s[0]) then TrimStart(s[1..]) else s
  }

  function TrimEnd(s: string): string
  {
    if s != [] && IsJsSpace(s[|s| - 1]) then TrimEnd(s[..|s| - 1]) else s
  }

  predicate AllDigits(s: string)
  {
    forall i :: 0 <= i < |s| ==> IsDigit(s[i])
  }

  /** The number a string converts to, or None for NaN: white space around
      an optionally signed run of decimal digits, or white space alone,
      which is 0. */
  function StringToNumber(s: string): Option<int>
  {
    var t := TrimEnd(TrimStart(s));
    if t == "" then Some(0)
    else if AllDigits(t) then Some(DecimalValue(t))
    else if |t| >= 2 && (t[0] == '+' || t[0] == '-') && AllDigits(t[1..]) then
      Some(if t[0] == '-' then -DecimalValue(t[1..]) else DecimalValue(t[1..]))
    else None
  }

  /** The conversion to a number that `i < v.length` applies, with None for
      NaN. Arrays and objects are converted to a string first, which can
      throw. */
  function ToNumber(v: Value): (r: Outcome<Option<int>>)
    ensures r.Thrown? ==> r.error == TypeError && (v.Arr? || v.Obj?)
  {
    match v
    case Undefined => Ok(None)
    case Null => Ok(Some(0))
    case Bool(b) => Ok(Some(if b then 1 else 0))
    case Num(n) => Ok(Some(n))
    case Str(s) => Ok(StringToNumber(s))
    case _ =>
      var s :- ToStr(v);
      Ok(StringToNumber(s))
  }

  /** Converting a number to a string and back gives the number. */
  lemma NumberStringRoundTrip(n: int)
    ensures ToStr(Num(n)).Ok? && StringToNumber(ToStr(Num(n)).value) == Some(n)
  {
    var m: nat := if n < 0 then -n else n;
    var d := Decimal(m);
    DecimalRoundTrip(m);
    if n < 0 {
      var s := "-" + d;
      assert ToStr(Num(n)) == Ok(s);
      assert s[|s| - 1] == d[|d| - 1];
      UntrimmedNumeral(s);
      assert s[1..] == d;
    } else {
      assert ToStr(Num(n)) == Ok(d);
      UntrimmedNumeral(d);
    }
  }

  /** A numeral that starts with a sign or a digit and ends with a digit
      has no white space to trim. */
  lemma UntrimmedNumeral(s: string)
    requires |s| >= 1 && (s[0] == '-' || IsDigit(s[0])) && IsDigit(s[|s| - 1])
    ensures TrimEnd(TrimStart(s)) == s
  {
    assert TrimStart(s) == s;
  }

  /** How often `for (i = 0; i < n; i++)` runs for the number `n`: never
      for NaN. */
  function LoopCount(n: Option<int>): nat
  {
    if n.Some? && n.value > 0 then n.value else 0
  }

  /** The items a `for (i = 0; i < v.length; i++) ... v[i] ...` loop visits:
      the elements of an array, the one-character strings of a string, and
      for an object the properties "0", "1", ... as far as its `length`
      property, converted to a number, reaches. Booleans and numbers have an
      undefined length, which is NaN, so the loop runs zero times. Undefined
      and null throw, and so does a `length` whose conversion throws. */
  function Elements(v: Value): (r: Outcome<seq<Value>>)
    ensures r.Thrown? <==> Nullish(v) || (v.Obj? && ToNumber(Prop(v.props, "length")).Thrown?)
    ensures r.Thrown? ==> r.error == TypeError
    ensures v.Arr? ==> r == Ok(v.elems)
    ensures v.Str? ==> r.Ok? && |r.value| == |v.s|
    ensures v.Str? ==> r == Ok(seq(|v.s|, i requires 0 <= i < |v.s| => Str([v.s[i]])))
    ensures v.Bool? || v.Num? ==> r == Ok([])
    ensures v.Obj? && r.Ok? ==>
      |r.value| == LoopCount(ToNumber(Prop(v.props, "length")).value) &&
      forall i :: 0 <= i < |r.value| ==> r.value[i] == Prop(v.props, Decimal(i))
  {
    match v
    case Undefined => Thrown(TypeError)
    case Null => Thrown(TypeError)
    case Arr(es) => Ok(es)
    case Str(s) => Ok(seq(|s|, i requires 0 <= i < |s| => Str([s[i]])))
    case Obj(props) =>
      var len :- ToNumber(Prop(props, "length"));
      var count := LoopCount(len);
      Ok(seq(count, i requires 0 <= i < count => Prop(props, Decimal(i))))
    case Bool(_) => Ok([])
    case Num(_) => Ok([])
  }

  // ---------------------------------------------------------------------
  // Strings
  // ---------------------------------------------------------------------

  predicate StartsWith(s: string, p: string)
  {
    |p| <= |s| && s[..|p|] == p
  }

  predicate EndsWith(s: string, p: string)
  {
    |p| <= |s| && s[|s| - |p|..] == p
  }

  /** `pat` occurs in `s` starting at position `k`. */
  predicate OccursAt(s: string, pat: string, k: int)
  {
    0 <= k && k + |pat| <= |s| && s[k..k + |pat|] == pat
  }

  predicate Contains(s: string, pat: string)
  {
    exists k :: 0 <= k <= |s| && OccursAt(s, pat, k)
  }

  /** Where `indexOf` starts looking: `from` clamped into 0..|s|. */
  function ClampFrom(from: int, len: nat): (r: nat)
    ensures r <= len
  {
    if from < 0 then 0 else if from > len then len else from
  }

  /** `s.indexOf(pat, from)`: the first occurrence of `pat` at or after the
      clamped start, or -1 when there is none. */
  function IndexOf(s: string, pat: string, from: int): (r: int)
    ensures r == -1 || (ClampFrom(from, |s|) <= r && OccursAt(s, pat, r))
    decreases |s| - ClampFrom(from, |s|)
  {
    var start := ClampFrom(from, |s|);
    if start + |pat| > |s| then -1
    else if s[start..start + |pat|] == pat then start
    else IndexOf(s, pat, start + 1)
  }

  /** `indexOf` finds the first occurrence: none lies between the clamped
      start and the result, and -1 means there is none at all. */
  lemma {:induction false} IndexOfIsFirst(s: string, pat: string, from: int)
    ensures var r := IndexOf(s, pat, from);
      forall k :: ClampFrom(from, |s|) <= k && (r == -1 || k < r) ==> !OccursAt(s, pat, k)
    decreases |s| - ClampFrom(from, |s|)
  {
    var start := ClampFrom(from, |s|);
    if start + |pat| > |s| {
    } else if s[start..start + |pat|] != pat {
      IndexOfIsFirst(s, pat, start + 1);
    }
  }

  /** How `slice` reads a position: a negative one counts back from the end,
      and the result is clamped into 0..len. */
  function RelativeIndex(i: int, len: nat): (r: nat)
    ensures r <= len
  {
    if i < 0 then (if len + i < 0 then 0 else len + i)
    else if i > len then len
    else i
  }

  /** `s.slice(start, end)`: the characters from the read start up to the
      read end, or none when the end is not past the start. */
  function Slice(s: string, start: int, end: int): (r: string)
    ensures var from, to := RelativeIndex(start, |s|), RelativeIndex(end, |s|);
      |r| == (if from < to then to - from else 0) &&
      forall i :: 0 <= i < |r| ==> r[i] == s[from + i]
  {
    var from, to := RelativeIndex(start, |s|), RelativeIndex(end, |s|);
    if from < to then s[from..to] else ""
  }

  /** Inside the string, `slice` is the ordinary substring. */
  lemma SliceWithin(s: string, start: int, end: int)
    requires 0 <= start <= end <= |s|
    ensures Slice(s, start, end) == s[start..end]
  {
  }

  /** A negative end counts back from the length. */
  lemma SliceNegativeEnd(s: string, start: int, end: int)
    requires -|s| <= end < 0
    ensures Slice(s, start, end) == Slice(s, start, |s| + end)
  {
  }

  /** An end at or before the start gives the empty string. */
  lemma SliceEmpty(s: string, start: int, end: int)
    requires RelativeIndex(end, |s|) <= RelativeIndex(start, |s|)
    ensures Slice(s, start, end) == ""
  {
  }

  predicate IsLineBreak(c: char)
  {
    c == '\n' || c == '\r'
  }

  /** `s.replace(/[\n\r]/g, ' ')`. */
  function ReplaceLineBreaks(s: string): (r: string)
    ensures |r| == |s|
  {
    if s == [] then []
    else [if IsLineBreak(s[0]) then ' ' else s[0]] + ReplaceLineBreaks(s[1..])
  }

  /** The replacement turns every line break into a space and keeps every
      other character where it was. */
  lemma {:induction false} ReplaceLineBreaksSpec(s: string)
    ensures var r := ReplaceLineBreaks(s);
      (forall i :: 0 <= i < |s| ==> !IsLineBreak(r[i])) &&
      (forall i :: 0 <= i < |s| && !IsLineBreak(s[i]) ==> r[i] == s[i]) &&
      (forall i :: 0 <= i < |s| && IsLineBreak(s[i]) ==> r[i] == ' ')
  {
    if s != [] {
      ReplaceLineBreaksSpec(s[1..]);
      var r := ReplaceLineBreaks(s);
      assert forall i :: 1 <= i < |s| ==> r[i] == ReplaceLineBreaks(s[1..])[i - 1] && s[i] == s[1..][i - 1];
    }
  }

  /** The inverse of `split`: the parts with `sep` between neighbours. */
  function Join(parts: seq<string>, sep: string): string
  {
    if |parts| == 0 then ""
    else if |parts| == 1 then parts[0]
    else parts[0] + sep + Join(parts[1..], sep)
  }

  lemma PrefixOccurrence(s: string, pat: string, k: nat, j: int)
    requires k <= |s|
    requires OccursAt(s[..k], pat, j)
    ensures OccursAt(s, pat, j) && j + |pat| <= k
  {
    assert s[..k][j..j + |pat|] == s[j..j + |pat|];
  }

  /** `s.split(sep)` for a non-empty separator (a string, or a regular
      expression that matches exactly that string): the pieces between
      successive occurrences, found left to right. */
  function Split(s: string, sep: string): (parts: seq<string>)
    requires sep != ""
    ensures |parts| >= 1
    decreases |s|
  {
    var k := IndexOf(s, sep, 0);
    if k == -1 then [s]
    else [s[..k]] + Split(s[k + |sep|..], sep)
  }

  /** `split` loses nothing and leaves no separator behind: joining the
      parts with the separator gives the string back, and no part contains
      the separator. */
  lemma {:induction false} SplitSpec(s: string, sep: string)
    requires sep != ""
    ensures var parts := Split(s, sep);
      Join(parts, sep) == s &&
      forall i :: 0 <= i < |parts| ==> !Contains(parts[i], sep)
    decreases |s|
  {
    var k := IndexOf(s, sep, 0);
    IndexOfIsFirst(s, sep, 0);
    if k != -1 {
      var rest := Split(s[k + |sep|..], sep);
      SplitSpec(s[k + |sep|..], sep);
      var parts := Split(s, sep);
      assert parts == [s[..k]] + rest;
      assert parts[1..] == rest;
      assert s == s[..k] + sep + s[k + |sep|..] by {
        assert s[k..k + |sep|] == sep;
      }
      forall j | OccursAt(s[..k], sep, j) ensures false {
        PrefixOccurrence(s, sep, k, j);
      }
    }
  }

  lemma JoinLast(parts: seq<string>, sep: string)
    requires |parts| >= 2
    ensures Join(parts, sep) == Join(parts[..|parts| - 1], sep) + sep + parts[|parts| - 1]
    decreases |parts|
  {
    if |parts| > 2 {
      assert parts[1..][..|parts[1..]| - 1] == parts[..|parts| - 1][1..];
      JoinLast(parts[1..], sep);
    }
  }

  lemma CharOccurs(s: string, i: nat)
    requires i < |s|
    ensures OccursAt(s, [s[i]], i)
  {
  }

  lemma NotContainsChar(s: string, c: char)
    requires !Contains(s, [c])
    ensures forall i :: 0 <= i < |s| ==> s[i] != c
  {
    forall i | 0 <= i < |s| ensures s[i] != c {
      CharOccurs(s, i);
    }
  }

  /** The first `c` at or after an occurrence of a pattern free of `c`
      lies past the pattern, and no `c` comes before it. */
  lemma CharAfterPattern(s: string, pat: string, ini: nat, c: char)
    requires OccursAt(s, pat, ini) && c !in pat
    requires IndexOf(s, [c], ini) >= 0
    ensures var n := IndexOf(s, [c], ini);
      ini + |pat| <= n && s[n] == c && forall k :: ini <= k < n ==> s[k] != c
  {
    var n := IndexOf(s, [c], ini);
    assert ClampFrom(ini, |s|) == ini;
    assert s[n..n + 1] == [c];
    forall k | ini <= k < ini + |pat| ensures s[k] != c {
      assert s[k] == s[ini..ini + |pat|][k - ini];
      assert pat[k - ini] in pat;
    }
    assert s[n] == s[n..n + 1][0] == c;
    IndexOfIsFirst(s, [c], ini);
    forall k | ini <= k < n ensures s[k] != c {
      CharOccurs(s, k);
    }
  }

  /** The last of some parts that join with `c` into `s`, none holding
      `c`, is what follows the last `c` of `s`. */
  lemma {:induction false} LastPartFollowsLastSeparator(s: string, parts: seq<string>, c: char)
    requires |parts| >= 1 && Join(parts, [c]) == s
    requires forall i :: 0 <= i < |parts| ==> !Contains(parts[i], [c])
    ensures var t := parts[|parts| - 1];
      EndsWith(s, t) &&
      (forall i :: 0 <= i < |t| ==> t[i] != c) &&
      (t == s || (|t| < |s| && s[|s| - |t| - 1] == c))
  {
    var t := parts[|parts| - 1];
    NotContainsChar(t, c);
    if |parts| >= 2 {
      JoinLast(parts, [c]);
      var head := Join(parts[..|parts| - 1], [c]);
      assert s == head + [c] + t;
      assert s[|s| - |t|..] == t;
      assert s[|s| - |t| - 1] == c;
    } else {
      assert Join(parts, [c]) == t;
    }
  }

  lemma LastSplitPart(s: string, c: char)
    ensures var parts := Split(s, [c]);
      var t := parts[|parts| - 1];
      EndsWith(s, t) &&
      (forall i :: 0 <= i < |t| ==> t[i] != c) &&
      (t == s || (|t| < |s| && s[|s| - |t| - 1] == c))
  {
    SplitSpec(s, [c]);
    LastPartFollowsLastSeparator(s, Split(s, [c]), c);
  }

  /** The last element of `s.split(c)`, as `pop()` returns it: what
      follows the last occurrence of `c`, which holds no `c` and is either
      the whole string or preceded by `c`. */
  function LastSegment(s: string, c: char): (t: string)
    ensures EndsWith(s, t)
    ensures forall i :: 0 <= i < |t| ==> t[i] != c
    ensures t == s || (|t| < |s| && s[|s| - |t| - 1] == c)
  {
    LastSplitPart(s, c);
    var parts := Split(s, [c]);
    parts[|parts| - 1]
  }
}
