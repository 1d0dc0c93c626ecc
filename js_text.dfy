// The few JavaScript string operations the bot relies on, stated over
// `string`. JavaScript's `length`, `slice` and regular expressions count
// UTF-16 code units. A Dafny `char` is one Unicode scalar value, so the
// two agree on text of the Basic Multilingual Plane. A character outside
// that plane (an emoji) is one `char` here but two code units there:
// on text holding one, the lengths and cut points below differ from
// JavaScript's. The model is faithful only for BMP text.

module JsText {

  datatype Option<+T> = None | Some(value: T)

  /** A JavaScript string that may be `undefined` is truthy when present and non-empty. */
  predicate Truthy(v: Option<string>) {
    v.Some? && v.value != ""
  }

  /** `v || fallback` for a string that may be `undefined`. */
  function OrElse(v: Option<string>, fallback: string): string {
    if Truthy(v) then v.value else fallback
  }

  /** Template-literal interpolation `${v}`: `undefined` renders as the word. */
  function Render(v: Option<string>): string {
    match v
    case Some(s) => s
    case None => "undefined"
  }

  /** `s.slice(0, n)`: the first n characters, or all of s when it is shorter. */
  function Prefix(s: string, n: nat): (r: string)
    ensures |r| == if |s| <= n then |s| else n
    ensures r <= s
  {
    if |s| <= n then s else s[..n]
  }

  /** `parts.join(sep)`. */
  function Join(parts: seq<string>, sep: string): string {
    if |parts| == 0 then ""
    else if |parts| == 1 then parts[0]
    else parts[0] + sep + Join(parts[1..], sep)
  }

  /** `s.split(c)` for a one-character separator: the pieces between separators, always at least one. */
  function SplitOn(s: string, c: char): (r: seq<string>)
    ensures |r| >= 1
    decreases |s|
  {
    if |s| == 0 then [""]
    else
      var rest := SplitOn(s[1..], c);
      if s[0] == c then [""] + rest
      else [[s[0]] + rest[0]] + rest[1..]
  }

  /** Splitting text that holds no separator gives the text back whole. */
  lemma {:induction false} SplitOnWithoutSeparator(t: string, c: char)
    requires c !in t
    ensures SplitOn(t, c) == [t]
  {
    if |t| > 0 {
      SplitOnWithoutSeparator(t[1..], c);
      assert [t[0]] + t[1..] == t;
    }
  }

  /** The first separator ends the first piece; the rest is split independently. */
  lemma {:induction false} SplitOnAtSeparator(t: string, c: char, rest: string)
    requires c !in t
    ensures SplitOn(t + [c] + rest, c) == [t] + SplitOn(rest, c)
  {
    var s := t + [c] + rest;
    if |t| == 0 {
      assert s[1..] == rest;
    } else {
      assert s[1..] == t[1..] + [c] + rest;
      SplitOnAtSeparator(t[1..], c, rest);
      assert [t[0]] + t[1..] == t;
    }
  }

  /** Splitting a join on its separator recovers the parts, provided no part holds the separator. */
  lemma {:induction false} SplitJoinRoundTrip(parts: seq<string>, c: char)
    requires |parts| >= 1
    requires forall i :: 0 <= i < |parts| ==> c !in parts[i]
    ensures SplitOn(Join(parts, [c]), c) == parts
  {
    if |parts| == 1 {
      SplitOnWithoutSeparator(parts[0], c);
    } else {
      SplitJoinRoundTrip(parts[1..], c);
      SplitOnAtSeparator(parts[0], c, Join(parts[1..], [c]));
      assert [parts[0]] + parts[1..] == parts;
    }
  }

  /** With a non-empty separator, a join is empty only for no parts or one empty part. */
  lemma JoinEmpty(parts: seq<string>, sep: string)
    requires sep != ""
    ensures Join(parts, sep) == "" <==> parts == [] || parts == [""]
  {
  }

  /** A join whose first part starts with `first` starts with `first` too. */
  lemma JoinStartsWith(parts: seq<string>, sep: string, first: char)
    requires |parts| >= 1 && |parts[0]| >= 1 && parts[0][0] == first
    ensures |Join(parts, sep)| >= 1 && Join(parts, sep)[0] == first
  {
  }

  /** `xs.flatMap(f)`: the results of f on each element, one after the other. */
  function FlatMap<T, U>(xs: seq<T>, f: T -> seq<U>): seq<U> {
    if |xs| == 0 then [] else f(xs[0]) + FlatMap(xs[1..], f)
  }

  /** flatMap of a concatenation is the flatMap of each part in turn. */
  lemma {:induction false} FlatMapAppend<T, U>(a: seq<T>, b: seq<T>, f: T -> seq<U>)
    ensures FlatMap(a + b, f) == FlatMap(a, f) + FlatMap(b, f)
  {
    if |a| == 0 {
      assert a + b == b;
    } else {
      assert (a + b)[0] == a[0] && (a + b)[1..] == a[1..] + b;
      FlatMapAppend(a[1..], b, f);
    }
  }

  /** The characters JavaScript's `\s` and `String.prototype.trim` treat as white space. */
  predicate IsJsSpace(ch: char) {
    ch == '\t' || ch == '\n' || ch == '\U{B}' || ch == '\U{C}' || ch == '\r' || ch == ' '
    || ch == '\U{A0}' || ch == '\U{1680}' || ('\U{2000}' <= ch <= '\U{200A}')
    || ch == '\U{2028}' || ch == '\U{2029}' || ch == '\U{202F}' || ch == '\U{205F}'
    || ch == '\U{3000}' || ch == '\U{FEFF}'
  }

  /** Leading white space removed: what is kept is a suffix that starts with no white space. */
  function TrimStart(s: string): (r: string)
    ensures |r| <= |s| && r == s[|s| - |r|..]
    ensures |r| > 0 ==> !IsJsSpace(r[0])
  {
    if |s| > 0 && IsJsSpace(s[0]) then TrimStart(s[1..]) else s
  }

  /** Trailing white space removed: what is kept is a prefix that ends with no white space. */
  function TrimEnd(s: string): (r: string)
    ensures r <= s
    ensures |r| > 0 ==> !IsJsSpace(r[|r| - 1])
  {
    if |s| > 0 && IsJsSpace(s[|s| - 1]) then TrimEnd(s[..|s| - 1]) else s
  }

  /** TrimStart drops only white space. */
  lemma {:induction false} TrimStartDropsSpace(s: string)
    ensures forall i :: 0 <= i < |s| - |TrimStart(s)| ==> IsJsSpace(s[i])
    decreases |s|
  {
    if |s| > 0 && IsJsSpace(s[0]) {
      TrimStartDropsSpace(s[1..]);
      assert forall i :: 1 <= i < |s| ==> s[i] == s[1..][i - 1];
    }
  }

  /** TrimEnd drops only white space. */
  lemma {:induction false} TrimEndDropsSpace(s: string)
    ensures forall i :: |TrimEnd(s)| <= i < |s| ==> IsJsSpace(s[i])
    decreases |s|
  {
    if |s| > 0 && IsJsSpace(s[|s| - 1]) {
      TrimEndDropsSpace(s[..|s| - 1]);
      assert forall i :: 0 <= i < |s| - 1 ==> s[i] == s[..|s| - 1][i];
    }
  }

  /** `s.trim()`. */
  function Trim(s: string): string {
    TrimEnd(TrimStart(s))
  }

  /** `s.replace(/&/g, " and ")`: no `&` is left. */
  function ReplaceAmpersands(s: string): (r: string)
    ensures '&' !in r
  {
    if |s| == 0 then ""
    else (if s[0] == '&' then " and " else [s[0]]) + ReplaceAmpersands(s[1..])
  }

  /**
   * Text without `&` is kept. With `ReplaceAmpersandsOne` and
   * `ReplaceAmpersandsAppend` this fixes the result: each `&` of s
   * replaced by " and ", the rest kept in order.
   */
  lemma {:induction false} ReplaceAmpersandsKeeps(s: string)
    requires '&' !in s
    ensures ReplaceAmpersands(s) == s
    decreases |s|
  {
    if |s| > 0 {
      var rest := s[1..];
      assert s == [s[0]] + rest && s[0] != '&';
      assert '&' !in rest by {
        assert forall i :: 0 <= i < |rest| ==> rest[i] == s[i + 1];
      }
      ReplaceAmpersandsKeeps(rest);
    }
  }

  /** A lone `&` becomes " and ". */
  lemma ReplaceAmpersandsOne()
    ensures ReplaceAmpersands("&") == " and "
  {
    assert "&"[1..] == "";
  }

  /** Replacing `&` works piece by piece. */
  lemma {:induction false} ReplaceAmpersandsAppend(a: string, b: string)
    ensures ReplaceAmpersands(a + b) == ReplaceAmpersands(a) + ReplaceAmpersands(b)
  {
    if |a| == 0 {
      assert a + b == b;
    } else {
      var head := if a[0] == '&' then " and " else [a[0]];
      assert (a + b)[0] == a[0] && (a + b)[1..] == a[1..] + b;
      ReplaceAmpersandsAppend(a[1..], b);
      calc {
        ReplaceAmpersands(a + b);
        head + ReplaceAmpersands(a[1..] + b);
        head + (ReplaceAmpersands(a[1..]) + ReplaceAmpersands(b));
        (head + ReplaceAmpersands(a[1..])) + ReplaceAmpersands(b);
      }
    }
  }

  /** `s.replace(/[-\s]/g, "_")`. */
  function Underscored(s: string): (r: string)
    ensures |r| == |s|
    ensures forall i :: 0 <= i < |r| ==> !IsJsSpace(r[i]) && r[i] != '-'
    ensures forall i :: 0 <= i < |s| && !IsJsSpace(s[i]) && s[i] != '-' ==> r[i] == s[i]
  {
    seq(|s|, i requires 0 <= i < |s| => if IsJsSpace(s[i]) || s[i] == '-' then '_' else s[i])
  }

  /** `s.replace(/\s+/g, "")`. */
  function WithoutSpaces(s: string): (r: string)
    ensures forall i :: 0 <= i < |r| ==> !IsJsSpace(r[i])
    ensures |r| <= |s|
    ensures (forall i :: 0 <= i < |s| ==> !IsJsSpace(s[i])) ==> r == s
    ensures (forall i :: 0 <= i < |s| ==> IsJsSpace(s[i])) ==> r == ""
  {
    if |s| == 0 then ""
    else (if IsJsSpace(s[0]) then "" else [s[0]]) + WithoutSpaces(s[1..])
  }

  /**
   * Removing white space works piece by piece. With the two all-or-nothing
   * cases above, this fixes the result: the characters of s that are not
   * white space, in order.
   */
  lemma {:induction false} WithoutSpacesAppend(a: string, b: string)
    ensures WithoutSpaces(a + b) == WithoutSpaces(a) + WithoutSpaces(b)
  {
    if |a| == 0 {
      assert a + b == b;
    } else {
      var head := if IsJsSpace(a[0]) then "" else [a[0]];
      assert (a + b)[0] == a[0] && (a + b)[1..] == a[1..] + b;
      WithoutSpacesAppend(a[1..], b);
      calc {
        WithoutSpaces(a + b);
        head + WithoutSpaces(a[1..] + b);
        head + (WithoutSpaces(a[1..]) + WithoutSpaces(b));
        (head + WithoutSpaces(a[1..])) + WithoutSpaces(b);
      }
    }
  }

  /** `s.toLowerCase()` restricted to ASCII, which is all the bot's tables contain. */
  function ToLowerAscii(s: string): (r: string)
    ensures |r| == |s|
  {
    seq(|s|, i requires 0 <= i < |s| => if 'A' <= s[i] <= 'Z' then (s[i] as int + 32) as char else s[i])
  }

  /** Lowering shifts each capital by 32 to its small letter, keeps every other character, and leaves no capital. */
  lemma ToLowerAsciiChars(s: string)
    ensures var r := ToLowerAscii(s);
      && (forall i :: 0 <= i < |s| && 'A' <= s[i] <= 'Z' ==> r[i] as int == s[i] as int + 32)
      && (forall i :: 0 <= i < |s| && !('A' <= s[i] <= 'Z') ==> r[i] == s[i])
      && (forall i :: 0 <= i < |r| ==> !('A' <= r[i] <= 'Z'))
  {
  }

  function DigitChar(d: nat): char
    requires d < 10
  {
    ('0' as int + d) as char
  }

  /** The number a string of decimal digits spells. */
  function DecimalValue(s: string): nat
    requires forall i :: 0 <= i < |s| ==> '0' <= s[i] <= '9'
  {
    if |s| == 0 then 0
    else 10 * DecimalValue(s[..|s| - 1]) + (s[|s| - 1] as int - '0' as int)
  }

  /** The number a rendered integer spells, reading a leading minus sign. */
  function SignedValue(s: string): int
    requires |s| >= 1
    requires forall i :: 1 <= i < |s| ==> '0' <= s[i] <= '9'
    requires s[0] == '-' || '0' <= s[0] <= '9'
  {
    if s[0] == '-' then -(DecimalValue(s[1..]) as int) else DecimalValue(s)
  }

  /** Decimal rendering of a natural number, as `${n}` prints an integer. */
  function NatToDecimal(n: nat): (r: string)
    ensures |r| >= 1
    ensures forall i :: 0 <= i < |r| ==> '0' <= r[i] <= '9'
  {
    if n < 10 then [DigitChar(n)] else NatToDecimal(n / 10) + [DigitChar(n % 10)]
  }

  /** Reading the digits back gives the number. */
  lemma {:induction false} NatToDecimalRoundTrip(n: nat)
    ensures DecimalValue(NatToDecimal(n)) == n
  {
    var s := NatToDecimal(n);
    if n >= 10 {
      NatToDecimalRoundTrip(n / 10);
      assert s[..|s| - 1] == NatToDecimal(n / 10);
    } else {
      assert s[..|s| - 1] == [];
    }
  }

  /** Decimal rendering of an integer, with a leading minus sign when negative. */
  function IntToDecimal(n: int): (r: string)
    ensures |r| >= 1
    ensures (r[0] == '-') <==> n < 0
  {
    if n < 0 then "-" + NatToDecimal(-n) else NatToDecimal(n)
  }

  /** Reading a rendered integer back gives the integer. */
  lemma IntToDecimalRoundTrip(n: int)
    ensures var s := IntToDecimal(n);
      && (forall i :: 1 <= i < |s| ==> '0' <= s[i] <= '9')
      && (s[0] == '-' || '0' <= s[0] <= '9')
      && SignedValue(s) == n
  {
    var s := IntToDecimal(n);
    if n < 0 {
      NatToDecimalRoundTrip(-n);
      assert s[1..] == NatToDecimal(-n);
    } else {
      NatToDecimalRoundTrip(n);
    }
  }
}
