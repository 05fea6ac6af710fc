/** JavaScript value semantics the client code relies on: truthiness of strings,
    `a || b` on strings, lower-casing, `trim`, `includes`, `join`, `parseInt`,
    number-to-text conversion and the truncating remainder operator. */
module Js {

  datatype Option<+T> = None | Some(value: T)

  /** A JS object whose keys are set with computed names (`{...prev, [name]: value}`). */
  type Fields = map<string, string>

  /** Reading a key: an absent key is `undefined`, which is falsy just like "". */
  function Get(m: Fields, k: string): (r: string)
    ensures k in m ==> r == m[k]
    ensures k !in m ==> r == ""
  {
    if k in m then m[k] else ""
  }

  /** A string is truthy exactly when it is non-empty. */
  predicate Truthy(s: string) { s != "" }

  /** `a || b` on two strings. */
  function Or(a: string, b: string): (r: string)
    ensures Truthy(a) ==> r == a
    ensures !Truthy(a) ==> r == b
  {
    if a != "" then a else b
  }

  /** The text `setItem` stores for a value that may be `undefined`. */
  function StoredText(v: Option<string>): (r: string)
    ensures v.Some? ==> r == v.value
    ensures v.None? ==> r == "undefined"
  {
    if v.Some? then v.value else "undefined"
  }

  /** The message of the TypeError thrown when reading `_id` of null. */
  const NullIdError: string := "Cannot read properties of null (reading '_id')"
  /** The message of the TypeError thrown when reading `id` of undefined. */
  const UndefinedIdError: string := "Cannot read properties of undefined (reading 'id')"
  /** The message of the TypeError thrown when reading `doctorId` of undefined. */
  const UndefinedDoctorIdError: string := "Cannot read properties of undefined (reading 'doctorId')"

  // ---------------------------------------------------------------- case

  function LowerChar(c: char): char
  {
    if 'A' <= c <= 'Z' then (c as int + 32) as char else c
  }

  /** `toLowerCase` on the ASCII range. */
  function ToLower(s: string): (r: string)
    ensures |r| == |s|
    ensures forall i :: 0 <= i < |s| ==> r[i] == LowerChar(s[i])
  {
    if s == [] then [] else [LowerChar(s[0])] + ToLower(s[1..])
  }

  // ---------------------------------------------------------------- trim

  predicate IsSpace(c: char)
  {
    c == ' ' || c == '\t' || c == '\n' || c == '\r' || c == '\U{000B}' || c == '\U{000C}'
    || c == '\U{00A0}' || c == '\U{FEFF}'
  }

  function TrimStart(s: string): (r: string)
    ensures |r| <= |s| && r == s[|s| - |r|..]
    ensures r != [] ==> !IsSpace(r[0])
    ensures forall i :: 0 <= i < |s| - |r| ==> IsSpace(s[i])
  {
    if s != [] && IsSpace(s[0]) then TrimStart(s[1..]) else s
  }

  function TrimEnd(s: string): (r: string)
    ensures |r| <= |s| && r == s[..|r|]
    ensures r != [] ==> !IsSpace(r[|r| - 1])
    ensures forall i :: |r| <= i < |s| ==> IsSpace(s[i])
  {
    if s != [] && IsSpace(s[|s| - 1]) then TrimEnd(s[..|s| - 1]) else s
  }

  /** `String.prototype.trim`. */
  function Trim(s: string): string
  {
    TrimEnd(TrimStart(s))
  }

  predicate Blank(s: string)
  {
    forall i :: 0 <= i < |s| ==> IsSpace(s[i])
  }

  /** `!s.trim()`: the text is empty once trimmed, that is, it is blank. */
  function TrimsToEmpty(s: string): (r: bool)
    ensures r <==> Blank(s)
  {
    TrimEmptyIffBlank(s);
    Trim(s) == ""
  }

  /** A string trims to "" exactly when every character of it is white space. */
  lemma TrimEmptyIffBlank(s: string)
    ensures Trim(s) == "" <==> Blank(s)
  {
    var t := TrimStart(s);
    if Trim(s) == "" {
      assert t == [];
    } else {
      var r := Trim(s);
      assert !IsSpace(r[0]);
      assert r[0] == t[0] == s[|s| - |t|];
    }
  }

  // ---------------------------------------------------------------- search

  /** `s.includes(sub)`. */
  predicate Includes(s: string, sub: string)
  {
    exists i :: 0 <= i <= |s| - |sub| && OccursAt(s, sub, i)
  }

  /** `sub` occurs in `s` starting at index `i`. */
  predicate OccursAt(s: string, sub: string, i: int)
  {
    0 <= i <= |s| - |sub| && s[i..i + |sub|] == sub
  }

  /** `xs.join(sep)`. */
  function Join(xs: seq<string>, sep: string): (r: string)
    ensures xs == [] ==> r == ""
    ensures |xs| == 1 ==> r == xs[0]
  {
    if xs == [] then "" else if |xs| == 1 then xs[0] else xs[0] + sep + Join(xs[1..], sep)
  }

  // ---------------------------------------------------------------- numbers

  predicate IsDigit(c: char) { '0' <= c <= '9' }

  function DigitValue(c: char): (d: nat)
    requires IsDigit(c)
    ensures d < 10
  {
    c as int - '0' as int
  }

  function DigitChar(d: nat): (c: char)
    requires d < 10
    ensures IsDigit(c) && DigitValue(c) == d
  {
    ('0' as int + d) as char
  }

  /** Number of leading decimal digits of `s`. */
  function LeadingDigits(s: string): (n: nat)
    ensures n <= |s|
    ensures forall i :: 0 <= i < n ==> IsDigit(s[i])
    ensures n < |s| ==> !IsDigit(s[n])
  {
    if s != [] && IsDigit(s[0]) then 1 + LeadingDigits(s[1..]) else 0
  }

  /** The value of a string of decimal digits, most significant first. */
  function DigitsValue(s: string): nat
    requires forall i :: 0 <= i < |s| ==> IsDigit(s[i])
  {
    if s == [] then 0 else 10 * DigitsValue(s[..|s| - 1]) + DigitValue(s[|s| - 1])
  }

  /** `0x` or `0X`: `parseInt` without a radix then reads base 16. */
  predicate HexPrefixed(u: string)
  {
    |u| >= 2 && u[0] == '0' && (u[1] == 'x' || u[1] == 'X')
  }

  predicate IsHexDigit(c: char)
  {
    IsDigit(c) || 'a' <= c <= 'f' || 'A' <= c <= 'F'
  }

  function HexDigitValue(c: char): (d: nat)
    requires IsHexDigit(c)
    ensures d < 16
    ensures IsDigit(c) ==> d == DigitValue(c)
  {
    if IsDigit(c) then DigitValue(c)
    else if 'a' <= c <= 'f' then c as int - 'a' as int + 10
    else c as int - 'A' as int + 10
  }

  /** Number of leading hexadecimal digits of `s`. */
  function LeadingHexDigits(s: string): (n: nat)
    ensures n <= |s|
    ensures forall i :: 0 <= i < n ==> IsHexDigit(s[i])
    ensures n < |s| ==> !IsHexDigit(s[n])
  {
    if s != [] && IsHexDigit(s[0]) then 1 + LeadingHexDigits(s[1..]) else 0
  }

  /** The value of a string of hexadecimal digits, most significant first. */
  function HexValue(s: string): nat
    requires forall i :: 0 <= i < |s| ==> IsHexDigit(s[i])
  {
    if s == [] then 0 else 16 * HexValue(s[..|s| - 1]) + HexDigitValue(s[|s| - 1])
  }

  /** The digits `parseInt` reads from `u`: hexadecimal ones after a `0x` prefix, decimal
      ones otherwise. */
  function DigitCount(u: string): nat
  {
    if HexPrefixed(u) then LeadingHexDigits(u[2..]) else LeadingDigits(u)
  }

  /** The value of the leading digits of `u`, `None` when there are none. */
  function LeadingValue(u: string): (r: Option<nat>)
    ensures r.None? <==> DigitCount(u) == 0
  {
    var n := DigitCount(u);
    if n == 0 then None
    else if HexPrefixed(u) then Some(HexValue(u[2..][..n]))
    else Some(DigitsValue(u[..n]))
  }

  /** What `parseInt` reads digits from: `s` without leading white space and without
      one leading sign. */
  function Unsigned(s: string): string
  {
    var t := TrimStart(s);
    if t != [] && (t[0] == '-' || t[0] == '+') then t[1..] else t
  }

  /** `parseInt(s)` without a radix: skip leading white space, read an optional sign,
      then the leading hexadecimal digits after a `0x`/`0X` prefix or else the leading
      decimal digits; `None` stands for NaN (no digit at all). */
  function ParseInt(s: string): (r: Option<int>)
    ensures r.None? <==> DigitCount(Unsigned(s)) == 0
  {
    var t := TrimStart(s);
    match LeadingValue(Unsigned(s))
    case None => None
    case Some(v) => var n: int := v; Some(if t != [] && t[0] == '-' then -n else n)
  }

  /** The decimal text of a natural number, as JS prints it. */
  function NatText(n: nat): (r: string)
    ensures r != [] && forall i :: 0 <= i < |r| ==> IsDigit(r[i])
  {
    if n < 10 then [DigitChar(n)] else NatText(n / 10) + [DigitChar(n % 10)]
  }

  /** Reading back what NatText prints gives the number: the printed text loses nothing. */
  lemma {:induction false} NatTextValue(n: nat)
    ensures DigitsValue(NatText(n)) == n
  {
    if n >= 10 {
      NatTextValue(n / 10);
      var t := NatText(n);
      assert t[..|t| - 1] == NatText(n / 10);
    }
  }

  lemma {:induction false} LeadingDigitsAll(s: string)
    requires forall i :: 0 <= i < |s| ==> IsDigit(s[i])
    ensures LeadingDigits(s) == |s|
  {
    if s != [] {
      LeadingDigitsAll(s[1..]);
    }
  }

  /** `parseInt(String(n)) === n` for every natural number. */
  lemma ParseNatText(n: nat)
    ensures ParseInt(NatText(n)) == Some(n)
  {
    NatTextValue(n);
    ParseDigits(NatText(n));
  }

  /** A non-empty string of digits parses to its value. */
  lemma ParseDigits(t: string)
    requires t != [] && forall i :: 0 <= i < |t| ==> IsDigit(t[i])
    ensures ParseInt(t) == Some(DigitsValue(t))
  {
    TrimStartAtDigit(t);
    assert t[0] != '-' && t[0] != '+' by {
      assert IsDigit(t[0]);
    }
    assert !HexPrefixed(t) by {
      if |t| >= 2 {
        assert IsDigit(t[1]);
      }
    }
    assert LeadingValue(t) == Some(DigitsValue(t)) by {
      LeadingDigitsAll(t);
      assert t[..|t|] == t;
    }
  }

  lemma {:induction false} LeadingHexDigitsAll(s: string)
    requires forall i :: 0 <= i < |s| ==> IsHexDigit(s[i])
    ensures LeadingHexDigits(s) == |s|
  {
    if s != [] {
      LeadingHexDigitsAll(s[1..]);
    }
  }

  /** `0x` followed by hexadecimal digits parses in base 16. */
  lemma ParseHex(t: string)
    requires t != [] && forall i :: 0 <= i < |t| ==> IsHexDigit(t[i])
    ensures ParseInt("0x" + t) == Some(HexValue(t))
    ensures ParseInt("0X" + t) == Some(HexValue(t))
  {
    var lower, upper := "0x" + t, "0X" + t;
    assert lower[2..] == t && upper[2..] == t;
    ParsePrefixedHex(lower);
    ParsePrefixedHex(upper);
  }

  lemma ParsePrefixedHex(u: string)
    requires HexPrefixed(u) && |u| > 2
    requires forall i :: 2 <= i < |u| ==> IsHexDigit(u[i])
    ensures ParseInt(u) == Some(HexValue(u[2..]))
  {
    var t := u[2..];
    LeadingHexDigitsAll(t);
    assert t[..|t|] == t;
    TrimStartAtDigit(u);
    assert Unsigned(u) == u;
  }

  lemma TrimStartAtDigit(t: string)
    requires t != [] && IsDigit(t[0])
    ensures TrimStart(t) == t
  {
    assert !IsSpace(t[0]);
  }

  /** JS `a % b` on integers: the remainder takes the sign of the dividend. */
  function JsRem(a: int, b: int): (r: int)
    requires b > 0
    ensures a >= 0 ==> 0 <= r < b && r == a % b
    ensures a < 0 ==> -b < r <= 0
  {
    if a >= 0 then a % b else -((-a) % b)
  }
}
