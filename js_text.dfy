/** The string built-ins of the JavaScript runtime that the configurator
    relies on: `String.prototype.split` with a one-character separator,
    `String.prototype.slice`, and the global `parseInt`, together with the
    decimal rendering of a natural number that `parseInt` inverts. */
module JsText {
  import opened Wrappers

  /* ---------- split ---------- */

  /** `s.split(sep)`: the pieces between the occurrences of `sep`, in order;
      the empty string splits into one empty piece. */
  function Split(s: string, sep: char): (parts: seq<string>)
    ensures |parts| >= 1
    ensures forall i :: 0 <= i < |parts| ==> sep !in parts[i]
    ensures |parts| == 1 <==> sep !in s
  {
    assert s != [] ==> s == [s[0]] + s[1..];
    if s == [] then [[]]
    else
      var rest := Split(s[1..], sep);
      if s[0] == sep then [[]] + rest else [[s[0]] + rest[0]] + rest[1..]
  }

  /** `parts.join(sep)`, the inverse of `Split`. */
  function Join(parts: seq<string>, sep: char): string
  {
    if |parts| == 0 then []
    else if |parts| == 1 then parts[0]
    else parts[0] + [sep] + Join(parts[1..], sep)
  }

  /** Splitting loses nothing: joining the pieces gives the string back. */
  lemma {:induction false} JoinSplit(s: string, sep: char)
    ensures Join(Split(s, sep), sep) == s
  {
    if s != [] {
      var rest := Split(s[1..], sep);
      JoinSplit(s[1..], sep);
      if s[0] != sep && |rest| > 1 {
        assert Join(rest, sep) == rest[0] + [sep] + Join(rest[1..], sep);
        assert Join(Split(s, sep), sep) == [s[0]] + rest[0] + [sep] + Join(rest[1..], sep);
      }
    }
  }

  /** A string without the separator is a single piece. */
  lemma {:induction false} SplitWithoutSeparator(s: string, sep: char)
    requires sep !in s
    ensures Split(s, sep) == [s]
  {
    if s != [] {
      SplitWithoutSeparator(s[1..], sep);
      assert [s[0]] + s[1..] == s;
    }
  }

  /** The first occurrence of the separator ends the first piece. */
  lemma {:induction false} SplitAtFirst(p: string, sep: char, q: string)
    requires sep !in p
    ensures Split(p + [sep] + q, sep) == [p] + Split(q, sep)
  {
    if p == [] {
      assert p + [sep] + q == [sep] + q;
    } else {
      assert (p + [sep] + q)[1..] == p[1..] + [sep] + q;
      SplitAtFirst(p[1..], sep, q);
      assert [p[0]] + p[1..] == p;
    }
  }

  /* ---------- slice ---------- */

  /** The index `s.slice` derives from a possibly negative argument. */
  function RelativeIndex(k: int, len: nat): (r: nat)
    ensures r <= len
    ensures 0 <= k <= len ==> r == k
    ensures k < 0 && len + k >= 0 ==> r == len + k
  {
    if k < 0 then (if len + k < 0 then 0 else len + k)
    else if k > len then len else k
  }

  /** `s.slice(start, end)`, negative arguments counting from the end. */
  function Slice(s: string, start: int, end: int): (r: string)
    ensures |r| <= |s|
    ensures 0 <= start <= end <= |s| ==> r == s[start..end]
    ensures start == 0 && -|s| <= end < 0 ==> r == s[..|s| + end]
  {
    var from, to := RelativeIndex(start, |s|), RelativeIndex(end, |s|);
    if from < to then s[from..to] else []
  }

  /** `slice(0, -k)` removes exactly a k-character suffix. */
  lemma SliceDropsSuffix(t: string, u: string)
    requires |u| > 0
    ensures Slice(t + u, 0, -|u|) == t
  {
    assert (t + u)[0..|t|] == t;
  }

  /** `slice(0, -k)` leaves nothing of a string no longer than k. */
  lemma SliceShortIsEmpty(s: string, k: nat)
    requires |s| <= k
    ensures Slice(s, 0, -(k as int)) == []
  {
  }

  /* ---------- parseInt ---------- */

  /** The characters `parseInt` skips before the number: the white space
      and line terminators of the ECMAScript grammar. */
  predicate IsSpace(c: char)
  {
    var n := c as int;
    n == 0x09 || n == 0x0A || n == 0x0B || n == 0x0C || n == 0x0D || n == 0x20 || n == 0xA0
    || n == 0x1680 || (0x2000 <= n <= 0x200A) || n == 0x2028 || n == 0x2029
    || n == 0x202F || n == 0x205F || n == 0x3000 || n == 0xFEFF
  }

  function TrimStart(s: string): (r: string)
    ensures |r| <= |s| && r == s[|s| - |r|..]
    ensures r == [] || !IsSpace(r[0])
  {
    if s != [] && IsSpace(s[0]) then TrimStart(s[1..]) else s
  }

  /** The value of a character as a digit in base 36; 36 for a character
      that is a digit in no base. */
  function DigitValue(c: char): (d: nat)
    ensures d <= 36
  {
    if '0' <= c <= '9' then c as int - '0' as int
    else if 'a' <= c <= 'z' then c as int - 'a' as int + 10
    else if 'A' <= c <= 'Z' then c as int - 'A' as int + 10
    else 36
  }

  predicate AllDigits(d: string, radix: nat)
  {
    forall i :: 0 <= i < |d| ==> DigitValue(d[i]) < radix
  }

  /** The longest prefix of `s` made of digits of the radix. */
  function DigitPrefix(s: string, radix: nat): (d: string)
    ensures |d| <= |s| && d == s[..|d|] && AllDigits(d, radix)
    ensures |d| < |s| ==> DigitValue(s[|d|]) >= radix
  {
    if s != [] && DigitValue(s[0]) < radix then [s[0]] + DigitPrefix(s[1..], radix) else []
  }

  /** The number a digit string denotes, most significant digit first. */
  function Value(d: string, radix: nat): nat
  {
    if d == [] then 0 else Value(d[..|d| - 1], radix) * radix + DigitValue(d[|d| - 1])
  }

  predicate HasHexPrefix(u: string)
  {
    |u| >= 2 && u[0] == '0' && (u[1] == 'x' || u[1] == 'X')
  }

  /** The unsigned part of `parseInt`: base 16 after a `0x` or `0X` prefix,
      base 10 otherwise, stopping at the first character that is not a
      digit; `None` when no digit is read. */
  function ParseDigits(u: string): Option<nat>
  {
    var radix := if HasHexPrefix(u) then 16 else 10;
    var digits := DigitPrefix(if HasHexPrefix(u) then u[2..] else u, radix);
    if digits == [] then None else Some(Value(digits, radix))
  }

  /** `parseInt(s)` with no radix argument: skip leading white space, read an
      optional sign, then the digits. `None` stands for `NaN`, the result
      when no digit is read. */
  function ParseInt(s: string): (r: Option<int>)
    ensures TrimStart(s) == [] ==> r.None?
    ensures r.Some? && r.value < 0 ==> TrimStart(s)[0] == '-'
  {
    var t := TrimStart(s);
    var negative := t != [] && t[0] == '-';
    var u := if t != [] && (t[0] == '-' || t[0] == '+') then t[1..] else t;
    match ParseDigits(u)
    case None => None
    case Some(m) => var v: int := m; Some(if negative then -v else v)
  }

  /* ---------- decimal rendering ---------- */

  function DigitChar(d: nat): (c: char)
    requires d < 10
    ensures '0' <= c <= '9' && DigitValue(c) == d
  {
    ('0' as int + d) as char
  }

  /** The decimal numeral of `n`, without leading zeros. */
  function Decimal(n: nat): (s: string)
    ensures s != [] && AllDigits(s, 10)
    ensures s[0] == '0' ==> n == 0 && |s| == 1
  {
    if n < 10 then [DigitChar(n)] else Decimal(n / 10) + [DigitChar(n % 10)]
  }

  /** Reading a numeral back gives its number. */
  lemma {:induction false} DecimalValue(n: nat)
    ensures Value(Decimal(n), 10) == n
  {
    if n >= 10 {
      var s := Decimal(n);
      assert s[..|s| - 1] == Decimal(n / 10);
      DecimalValue(n / 10);
    }
  }

  /** Distinct numbers have distinct numerals. */
  lemma DecimalInjective(a: nat, b: nat)
    requires Decimal(a) == Decimal(b)
    ensures a == b
  {
    DecimalValue(a);
    DecimalValue(b);
  }

  /** Digits followed by a non-digit: the digit prefix is exactly the digits. */
  lemma {:induction false} DigitPrefixOf(d: string, rest: string, radix: nat)
    requires AllDigits(d, radix)
    requires rest == [] || DigitValue(rest[0]) >= radix
    ensures DigitPrefix(d + rest, radix) == d
  {
    if d == [] {
      assert d + rest == rest;
    } else {
      assert (d + rest)[1..] == d[1..] + rest;
      DigitPrefixOf(d[1..], rest, radix);
    }
  }

  /** A numeral starts with a digit, so there is no white space to skip. */
  lemma DecimalUntrimmed(n: nat, rest: string)
    ensures TrimStart(Decimal(n) + rest) == Decimal(n) + rest
  {
    var d := Decimal(n);
    assert (d + rest)[0] == d[0] && '0' <= d[0] <= '9';
  }

  /** A numeral followed by anything but `x` or `X` has no hex prefix. */
  lemma DecimalNotHex(n: nat, rest: string)
    requires rest == [] || (rest[0] != 'x' && rest[0] != 'X')
    ensures !HasHexPrefix(Decimal(n) + rest)
  {
    var d := Decimal(n);
    var s := d + rest;
    if |s| >= 2 && s[0] == '0' {
      assert s[0] == d[0];
      assert |d| == 1;
      assert s[1] == rest[0];
    }
  }

  /** `parseInt` reads a numeral back, whatever non-digit follows it (other
      than the `x` that would turn a leading `0` into a hex prefix). */
  lemma ParseDecimal(n: nat, rest: string)
    requires rest == [] || (DigitValue(rest[0]) >= 10 && rest[0] != 'x' && rest[0] != 'X')
    ensures ParseInt(Decimal(n) + rest) == Some(n)
  {
    var s := Decimal(n) + rest;
    DecimalUntrimmed(n, rest);
    assert TrimStart(s) == s;
    assert s[0] == Decimal(n)[0] && '0' <= s[0] <= '9';
    assert s[0] != '-' && s[0] != '+';
    DecimalNotHex(n, rest);
    assert !HasHexPrefix(s);
    assert DigitPrefix(s, 10) == Decimal(n) by {
      DigitPrefixOf(Decimal(n), rest, 10);
    }
    assert ParseDigits(s) == Some(n) by {
      DecimalValue(n);
    }
    assert ParseInt(s) == Some(n as int);
  }
}
