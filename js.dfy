/** The JavaScript value and string semantics the request handlers rely on:
    truthiness, `String(x)`, `toUpperCase`, `trim`, unary `+` on a string,
    `split`, `join`, `replace` and `replaceAll` with a one-character pattern. */
module Js {

  datatype Option<+T> = None | Some(value: T)

  /** A value read from a JSON request body. Floating-point numbers, NaN,
      objects and arrays are not modelled. */
  datatype JsValue = Undefined | Null | Bool(b: bool) | Num(n: int) | Str(s: string)

  /** JavaScript truthiness: `undefined`, `null`, `false`, `0` and `""` are falsy. */
  predicate Truthy(v: JsValue) {
    match v
    case Undefined => false
    case Null => false
    case Bool(b) => b
    case Num(n) => n != 0
    case Str(s) => s != ""
  }

  /** `String(v)` */
  function StringOf(v: JsValue): string {
    match v
    case Undefined => "undefined"
    case Null => "null"
    case Bool(b) => if b then "true" else "false"
    case Num(n) => IntToString(n)
    case Str(s) => s
  }

  // ----- characters -------------------------------------------------------

  predicate IsDigit(c: char) { '0' <= c <= '9' }

  /** ECMAScript WhiteSpace and LineTerminator code points (what `trim` strips). */
  predicate IsWhitespace(c: char) {
    || c == ' ' || c == '\t' || c == '\n' || c == '\r'
    || c == '\U{000B}' || c == '\U{000C}' || c == '\U{00A0}' || c == '\U{1680}'
    || ('\U{2000}' <= c <= '\U{200A}')
    || c == '\U{2028}' || c == '\U{2029}' || c == '\U{202F}' || c == '\U{205F}'
    || c == '\U{3000}' || c == '\U{FEFF}'
  }

  predicate AllWhitespace(s: string) { forall i :: 0 <= i < |s| ==> IsWhitespace(s[i]) }

  /** Upper-case mapping of one character: ASCII and Latin-1 letters. */
  function UpperChar(c: char): char {
    if 'a' <= c <= 'z' || ('\U{00E0}' <= c <= '\U{00FE}' && c != '\U{00F7}') then
      (c as int - 32) as char
    else if c == '\U{00FF}' then '\U{0178}'
    else if c == '\U{00B5}' then '\U{039C}'
    else c
  }

  /** `s.toUpperCase()` */
  function ToUpper(s: string): string {
    seq(|s|, i requires 0 <= i < |s| => UpperChar(s[i]))
  }

  /** A string that `toUpperCase` leaves as it is. */
  predicate IsUpper(s: string) { ToUpper(s) == s }

  lemma UpperCharIdempotent(c: char)
    ensures UpperChar(UpperChar(c)) == UpperChar(c)
  {}

  /** Upper-casing twice is upper-casing once: stored text is upper-case. */
  lemma ToUpperIsUpper(s: string)
    ensures |ToUpper(s)| == |s| && IsUpper(ToUpper(s))
  {
    forall i | 0 <= i < |s| ensures ToUpper(ToUpper(s))[i] == ToUpper(s)[i] {
      UpperCharIdempotent(s[i]);
    }
  }

  /** Any slice of upper-case text is upper-case. */
  lemma UpperSlice(s: string, i: nat, j: nat)
    requires IsUpper(s) && i <= j <= |s|
    ensures IsUpper(s[i..j])
  {
    forall k | 0 <= k < j - i ensures ToUpper(s[i..j])[k] == s[i..j][k] {
      assert ToUpper(s)[i + k] == s[i + k];
    }
  }

  lemma ToUpperConcat(a: string, b: string)
    ensures ToUpper(a + b) == ToUpper(a) + ToUpper(b)
  {}

  lemma ToUpperKeepsWhitespace(w: string)
    requires AllWhitespace(w)
    ensures ToUpper(w) == w
  {}

  /** `String(v).toUpperCase()` */
  function UpperString(v: JsValue): (r: string)
    ensures IsUpper(r)
  {
    ToUpperIsUpper(StringOf(v));
    ToUpper(StringOf(v))
  }

  /** `v ? String(v).toUpperCase() : ""` */
  function UpperOrEmpty(v: JsValue): (r: string)
    ensures IsUpper(r)
    ensures r == "" <==> !Truthy(v)
  {
    if Truthy(v) then UpperString(v) else ""
  }

  /** An absent field is stored as the text "UNDEFINED". */
  lemma UndefinedIsStoredAsText()
    ensures UpperString(Undefined) == "UNDEFINED"
  {
    var u := ToUpper("undefined");
    assert |u| == 9;
    assert u[0] == 'U' && u[1] == 'N' && u[2] == 'D' && u[3] == 'E' && u[4] == 'F';
    assert u[5] == 'I' && u[6] == 'N' && u[7] == 'E' && u[8] == 'D';
  }

  // ----- trim ---------------------------------------------------------------

  /** The number of whitespace characters `s` starts with. */
  function LeadingWhitespace(s: string): (n: nat)
    ensures n <= |s|
    ensures forall i :: 0 <= i < n ==> IsWhitespace(s[i])
    ensures n == |s| || !IsWhitespace(s[n])
    decreases |s|
  {
    if s != [] && IsWhitespace(s[0]) then 1 + LeadingWhitespace(s[1..]) else 0
  }

  /** The number of whitespace characters `s` ends with. */
  function TrailingWhitespace(s: string): (n: nat)
    ensures n <= |s|
    ensures forall i :: |s| - n <= i < |s| ==> IsWhitespace(s[i])
    ensures n == |s| || !IsWhitespace(s[|s| - n - 1])
    decreases |s|
  {
    if s != [] && IsWhitespace(s[|s| - 1]) then 1 + TrailingWhitespace(s[..|s| - 1]) else 0
  }

  /** `s.trimStart()`: the suffix left after dropping leading whitespace. */
  function TrimStart(s: string): (r: string)
    ensures |r| <= |s| && r == s[|s| - |r|..]
    ensures r == [] || !IsWhitespace(r[0])
    ensures forall i :: 0 <= i < |s| - |r| ==> IsWhitespace(s[i])
  {
    s[LeadingWhitespace(s)..]
  }

  /** `s.trimEnd()`: the prefix left after dropping trailing whitespace. */
  function TrimEnd(s: string): (r: string)
    ensures |r| <= |s| && r == s[..|r|]
    ensures r == [] || !IsWhitespace(r[|r| - 1])
    ensures forall i :: |r| <= i < |s| ==> IsWhitespace(s[i])
  {
    s[..|s| - TrailingWhitespace(s)]
  }

  /** `s.trim()` */
  function Trim(s: string): string {
    TrimEnd(TrimStart(s))
  }

  /** Whitespace in front adds to the leading count: the count is the index
      of the first character that is not whitespace, and there is only one. */
  lemma LeadingAfterWhitespace(w: string, x: string)
    requires AllWhitespace(w)
    ensures LeadingWhitespace(w + x) == |w| + LeadingWhitespace(x)
  {
    var s, m := w + x, |w| + LeadingWhitespace(x);
    assert forall i :: |w| <= i < |s| ==> s[i] == x[i - |w|];
    assert forall i :: 0 <= i < m ==> IsWhitespace(s[i]);
    assert m == |s| || !IsWhitespace(s[m]);
  }

  /** Whitespace behind adds to the trailing count. */
  lemma TrailingBeforeWhitespace(x: string, w: string)
    requires AllWhitespace(w)
    ensures TrailingWhitespace(x + w) == |w| + TrailingWhitespace(x)
  {
    var s := x + w;
    assert forall i :: 0 <= i < |x| ==> s[i] == x[i];
  }

  lemma TrimStartAfterWhitespace(w: string, x: string)
    requires AllWhitespace(w)
    ensures TrimStart(w + x) == TrimStart(x)
  {
    LeadingAfterWhitespace(w, x);
    assert (w + x)[|w| + LeadingWhitespace(x)..] == x[LeadingWhitespace(x)..];
  }

  lemma TrimEndBeforeWhitespace(x: string, w: string)
    requires AllWhitespace(w)
    ensures TrimEnd(x + w) == TrimEnd(x)
  {
    TrailingBeforeWhitespace(x, w);
    assert (x + w)[..|x| - TrailingWhitespace(x)] == x[..|x| - TrailingWhitespace(x)];
  }

  /** Trailing whitespace survives `trimStart` unless the whole string is blank. */
  lemma TrimStartBeforeWhitespace(x: string, w: string)
    requires AllWhitespace(w)
    ensures TrimStart(x + w) == if TrimStart(x) == [] then [] else TrimStart(x) + w
  {
    var s, n := x + w, LeadingWhitespace(x);
    if n < |x| {
      assert s[n] == x[n];
      assert LeadingWhitespace(s) == n;
      assert s[n..] == x[n..] + w;
    } else {
      LeadingAfterWhitespace(x, w);
      assert LeadingWhitespace(w) == |w|;
    }
  }

  /** `trim` ignores whitespace padding on either side. */
  lemma TrimIgnoresPadding(w1: string, x: string, w2: string)
    requires AllWhitespace(w1) && AllWhitespace(w2)
    ensures Trim(w1 + x + w2) == Trim(x)
  {
    assert w1 + x + w2 == w1 + (x + w2);
    TrimStartAfterWhitespace(w1, x + w2);
    TrimStartBeforeWhitespace(x, w2);
    if TrimStart(x) != [] {
      TrimEndBeforeWhitespace(TrimStart(x), w2);
    }
  }

  /** Upper-casing neither creates nor removes whitespace. */
  lemma UpperCharWhitespace(c: char)
    ensures IsWhitespace(UpperChar(c)) <==> IsWhitespace(c)
  {}

  lemma ToUpperBlank(s: string)
    ensures AllWhitespace(ToUpper(s)) <==> AllWhitespace(s)
  {
    forall i | 0 <= i < |s| ensures IsWhitespace(ToUpper(s)[i]) <==> IsWhitespace(s[i]) {
      UpperCharWhitespace(s[i]);
    }
  }

  /** `s.trim().length === 0` exactly when `s` is all whitespace. */
  lemma TrimEmptyIffBlank(s: string)
    ensures Trim(s) == [] <==> AllWhitespace(s)
  {
  }

  /** What `trimStart` drops is whitespace. */
  lemma LeadingPad(s: string)
    ensures AllWhitespace(s[..LeadingWhitespace(s)])
  {
    var k := LeadingWhitespace(s);
    assert forall i :: 0 <= i < k ==> s[..k][i] == s[i];
  }

  /** What `trimEnd` drops is whitespace. */
  lemma TrailingPad(t: string)
    ensures AllWhitespace(t[|TrimEnd(t)|..])
  {
    var n := |TrimEnd(t)|;
    assert forall i :: 0 <= i < |t| - n ==> t[n..][i] == t[n + i];
  }

  /** Trimming upper-case text leaves upper-case text. */
  lemma TrimKeepsUpper(s: string)
    requires IsUpper(s)
    ensures IsUpper(Trim(s))
  {
    var t := TrimStart(s);
    assert t == s[|s| - |t|..|s|];
    UpperSlice(s, |s| - |t|, |s|);
    var e := TrimEnd(t);
    assert e == t[0..|e|];
    UpperSlice(t, 0, |e|);
  }

  /** `s` is its leading whitespace, then `s.trim()`, then whitespace. */
  lemma TrimSplits(s: string)
    ensures var k, r := LeadingWhitespace(s), Trim(s);
      && k + |r| <= |s| && s[k..k + |r|] == r
      && AllWhitespace(s[..k]) && AllWhitespace(s[k + |r|..])
  {
    var k := LeadingWhitespace(s);
    var t := s[k..];
    var r := TrimEnd(t);
    assert r == t[..|r|];
    assert s[k..k + |r|] == r;
    LeadingPad(s);
    TrailingPad(t);
    assert s[k + |r|..] == t[|r|..];
  }

  lemma TrimNoPadding(s: string)
    requires s != [] && !IsWhitespace(s[0]) && !IsWhitespace(s[|s| - 1])
    ensures Trim(s) == s
  {}

  // ----- decimal numerals ---------------------------------------------------

  function DigitChar(d: nat): char
    requires d < 10
  {
    ('0' as int + d) as char
  }

  predicate AllDigits(s: string) { forall i :: 0 <= i < |s| ==> IsDigit(s[i]) }

  /** `String(n)` for a non-negative integer: its decimal digits, no leading zero. */
  function NatToString(n: nat): (r: string)
    ensures 1 <= |r| && AllDigits(r)
    ensures |r| > 1 ==> r[0] != '0'
    decreases n
  {
    if n < 10 then [DigitChar(n)] else NatToString(n / 10) + [DigitChar(n % 10)]
  }

  /** `String(i)` for an integer. */
  function IntToString(i: int): (r: string)
    ensures r != [] && r[0] != '/' && '/' !in r
  {
    if i < 0 then "-" + NatToString(-i) else NatToString(i)
  }

  /** The value of a string of decimal digits. */
  function DigitsValue(s: string): nat
    requires AllDigits(s)
    decreases |s|
  {
    if s == [] then 0 else DigitsValue(s[..|s| - 1]) * 10 + (s[|s| - 1] as int - '0' as int)
  }

  /** The result of `Number(s)`, which is what unary `+` gives for a string. */
  datatype JsNumber = NaN | Finite(value: int)

  /** `Number(s)` for the numerals the model knows: blank is 0, an optional
      sign followed by decimal digits is that integer, anything else is NaN. */
  function ParseNumber(s: string): JsNumber {
    var t := Trim(s);
    if t == [] then Finite(0)
    else if (t[0] == '-' || t[0] == '+') && |t| > 1 && AllDigits(t[1..]) then
      var magnitude: int := DigitsValue(t[1..]);
      Finite(if t[0] == '-' then -magnitude else magnitude)
    else if AllDigits(t) then Finite(DigitsValue(t))
    else NaN
  }

  /** `a < b` on numbers: any comparison with NaN is false. */
  predicate Less(a: JsNumber, b: JsNumber) {
    a.Finite? && b.Finite? && a.value < b.value
  }

  lemma {:induction false} DigitsValueOfNat(n: nat)
    ensures DigitsValue(NatToString(n)) == n
    decreases n
  {
    var s := NatToString(n);
    if n >= 10 {
      DigitsValueOfNat(n / 10);
      assert s[..|s| - 1] == NatToString(n / 10);
    }
  }

  lemma DigitsAreNotWhitespace(s: string)
    requires AllDigits(s)
    ensures forall i :: 0 <= i < |s| ==> !IsWhitespace(s[i])
  {}

  /** Reading back a number written by `String(n)` gives `n`. */
  lemma ParseNatRoundTrip(n: nat)
    ensures ParseNumber(NatToString(n)) == Finite(n)
  {
    var s := NatToString(n);
    DigitsAreNotWhitespace(s);
    TrimNoPadding(s);
    DigitsValueOfNat(n);
  }

  lemma ParseIntRoundTrip(i: int)
    ensures ParseNumber(IntToString(i)) == Finite(i)
  {
    if i < 0 {
      var d := NatToString(-i);
      var s := "-" + d;
      DigitsAreNotWhitespace(d);
      assert s[|s| - 1] == d[|d| - 1];
      TrimNoPadding(s);
      assert s[1..] == d;
      DigitsValueOfNat(-i);
    } else {
      ParseNatRoundTrip(i);
    }
  }

  // ----- split and join -----------------------------------------------------

  /** `s.split(sep)` for a one-character separator. */
  function Split(s: string, sep: char): (r: seq<string>)
    ensures |r| >= 1
    ensures forall i :: 0 <= i < |r| ==> sep !in r[i]
    decreases |s|
  {
    if s == [] then [""]
    else
      var rest := Split(s[1..], sep);
      if s[0] == sep then [""] + rest
      else [[s[0]] + rest[0]] + rest[1..]
  }

  /** `parts.join(sep)` */
  function Join(parts: seq<string>, sep: string): string
    decreases |parts|
  {
    if parts == [] then ""
    else if |parts| == 1 then parts[0]
    else parts[0] + sep + Join(parts[1..], sep)
  }

  /** Joining the pieces of a split with its separator rebuilds the string. */
  lemma {:induction false} SplitJoinRoundTrip(s: string, sep: char)
    ensures Join(Split(s, sep), [sep]) == s
    decreases |s|
  {
    if s != [] {
      var rest := Split(s[1..], sep);
      SplitJoinRoundTrip(s[1..], sep);
      if s[0] == sep {
        assert s == [sep] + s[1..];
      } else if |rest| == 1 {
        assert s == [s[0]] + s[1..];
      } else {
        assert s == [s[0]] + s[1..];
        assert Join(rest, [sep]) == rest[0] + [sep] + Join(rest[1..], [sep]);
        assert ([[s[0]] + rest[0]] + rest[1..])[1..] == rest[1..];
      }
    }
  }

  lemma {:induction false} SplitWithoutSeparator(s: string, sep: char)
    requires sep !in s
    ensures Split(s, sep) == [s]
    decreases |s|
  {
    if s != [] {
      SplitWithoutSeparator(s[1..], sep);
      assert s == [s[0]] + s[1..];
    }
  }

  /** A field free of the separator, followed by the separator, is split off whole. */
  lemma {:induction false} SplitField(a: string, sep: char, b: string)
    requires sep !in a
    ensures Split(a + [sep] + b, sep) == [a] + Split(b, sep)
    decreases |a|
  {
    if a == [] {
      assert a + [sep] + b == [sep] + b;
      assert ([sep] + b)[1..] == b;
    } else {
      var s := a + [sep] + b;
      assert s[1..] == a[1..] + [sep] + b;
      SplitField(a[1..], sep, b);
      assert [a[0]] + a[1..] == a;
    }
  }

  // ----- replace and replaceAll with a one-character pattern ------------------

  /** `s.replaceAll(c, "")`: every occurrence of `c` removed. */
  function RemoveAll(s: string, c: char): (r: string)
    ensures forall d :: d in r ==> d in s && d != c
    ensures |r| <= |s|
    decreases |s|
  {
    if s == [] then []
    else if s[0] == c then RemoveAll(s[1..], c)
    else [s[0]] + RemoveAll(s[1..], c)
  }

  /** `s.replace(c, "")`: only the first occurrence of `c` removed. */
  function RemoveFirst(s: string, c: char): (r: string)
    ensures c in s ==> |r| == |s| - 1
    ensures c !in s ==> r == s
    decreases |s|
  {
    if s == [] then []
    else if s[0] == c then s[1..]
    else [s[0]] + RemoveFirst(s[1..], c)
  }

  /** `replaceAll` keeps every other character, as often as it occurred. */
  lemma {:induction false} RemoveAllCounts(s: string, c: char)
    ensures multiset(RemoveAll(s, c)) == multiset(s)[c := 0]
    decreases |s|
  {
    if s != [] {
      assert s == [s[0]] + s[1..];
      RemoveAllCounts(s[1..], c);
    }
  }

  /** `replace` takes away one occurrence of `c`, when there is one, and nothing else. */
  lemma {:induction false} RemoveFirstCounts(s: string, c: char)
    ensures multiset(RemoveFirst(s, c)) == multiset(s) - multiset{c}
    decreases |s|
  {
    if s != [] {
      assert s == [s[0]] + s[1..];
      if s[0] != c {
        RemoveFirstCounts(s[1..], c);
      }
    }
  }

  /** Removing every occurrence keeps the other characters in their order. */
  lemma {:induction false} RemoveAllConcat(a: string, b: string, c: char)
    ensures RemoveAll(a + b, c) == RemoveAll(a, c) + RemoveAll(b, c)
    decreases |a|
  {
    if a != [] {
      assert (a + b)[1..] == a[1..] + b;
      RemoveAllConcat(a[1..], b, c);
    } else {
      assert a + b == b;
    }
  }

  lemma {:induction false} RemoveAllWithoutOccurrence(s: string, c: char)
    requires c !in s
    ensures RemoveAll(s, c) == s
    decreases |s|
  {
    if s != [] {
      RemoveAllWithoutOccurrence(s[1..], c);
      assert s == [s[0]] + s[1..];
    }
  }

  /** When `c` occurs at most once, `replace` and `replaceAll` agree. */
  lemma {:induction false} RemoveFirstIsRemoveAllForOneOccurrence(s: string, c: char)
    requires multiset(s)[c] <= 1
    ensures RemoveFirst(s, c) == RemoveAll(s, c)
    decreases |s|
  {
    if s != [] {
      assert s == [s[0]] + s[1..];
      assert multiset(s) == multiset{s[0]} + multiset(s[1..]);
      if s[0] == c {
        assert multiset(s[1..])[c] == 0;
        assert c !in s[1..];
        RemoveAllWithoutOccurrence(s[1..], c);
      } else {
        RemoveFirstIsRemoveAllForOneOccurrence(s[1..], c);
      }
    }
  }
}
