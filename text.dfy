/** The string operations the bot relies on: `str.strip()`, `str.lower()`,
    `str.startswith`, the `[:n]` slice, `split(":")[1]`, and the decimal
    conversions done by `int(...)` and f-strings. */
module Text {
  import opened Wrappers

  /** Python's `str.isspace()` for one character: the code points that
      `str.strip()` with no argument removes. */
  predicate IsSpace(c: char)
  {
    var n := c as int;
    || 9 <= n <= 13
    || 28 <= n <= 32
    || n == 0x85 || n == 0xA0 || n == 0x1680
    || 0x2000 <= n <= 0x200A
    || n == 0x2028 || n == 0x2029 || n == 0x202F || n == 0x205F || n == 0x3000
  }

  /** `s.lstrip()`: the suffix of `s` left after dropping leading whitespace. */
  function TrimLeft(s: string): (r: string)
    ensures |r| <= |s| && r == s[|s| - |r|..]
    ensures r == [] || !IsSpace(r[0])
    ensures forall i | 0 <= i < |s| - |r| :: IsSpace(s[i])
  {
    if s != [] && IsSpace(s[0]) then TrimLeft(s[1..]) else s
  }

  /** `s.rstrip()`: the prefix of `s` left after dropping trailing whitespace. */
  function TrimRight(s: string): (r: string)
    ensures |r| <= |s| && r == s[..|r|]
    ensures r == [] || !IsSpace(r[|r| - 1])
    ensures forall i | |r| <= i < |s| :: IsSpace(s[i])
  {
    if s != [] && IsSpace(s[|s| - 1]) then TrimRight(s[..|s| - 1]) else s
  }

  /** `r` is the slice of `s` starting at `a`, and everything in `s` before
      and after that slice is whitespace. */
  predicate StrippedAt(s: string, r: string, a: int)
  {
    && 0 <= a && a + |r| <= |s|
    && r == s[a..a + |r|]
    && (forall i | 0 <= i < a :: IsSpace(s[i]))
    && (forall i | a + |r| <= i < |s| :: IsSpace(s[i]))
  }

  /** `s.strip()`: the part of `s` left once its leading and trailing
      whitespace is dropped; it is empty exactly when `s` is blank, and
      otherwise neither starts nor ends with whitespace. */
  function Strip(s: string): (r: string)
    ensures exists a :: StrippedAt(s, r, a)
    ensures r == [] || (!IsSpace(r[0]) && !IsSpace(r[|r| - 1]))
    ensures r == [] <==> forall i | 0 <= i < |s| :: IsSpace(s[i])
  {
    var t := TrimLeft(s);
    var r := TrimRight(t);
    assert r != [] ==> r[0] == t[0];
    TrimBothAt(s);
    r
  }

  /** Trimming both sides leaves the slice that starts where the leading
      whitespace ends. */
  lemma TrimBothAt(s: string)
    ensures StrippedAt(s, TrimRight(TrimLeft(s)), |s| - |TrimLeft(s)|)
  {
    var t := TrimLeft(s);
    var r := TrimRight(t);
    assert |t| <= |s| && t == s[|s| - |t|..];
    assert |r| <= |t| && r == t[..|r|];
    SliceOfSlice(s, t, r);
  }

  /** A whitespace-bounded prefix `r` of a whitespace-bounded suffix `t` of
      `s` is a whitespace-bounded slice of `s`. */
  lemma SliceOfSlice(s: string, t: string, r: string)
    requires |t| <= |s| && t == s[|s| - |t|..]
    requires |r| <= |t| && r == t[..|r|]
    requires forall i | 0 <= i < |s| - |t| :: IsSpace(s[i])
    requires forall i | |r| <= i < |t| :: IsSpace(t[i])
    ensures StrippedAt(s, r, |s| - |t|)
  {
    var a := |s| - |t|;
    assert s[a..][..|r|] == s[a..a + |r|];
    forall i | a + |r| <= i < |s|
      ensures IsSpace(s[i])
    {
      assert s[i] == t[i - a];
    }
  }

  /** Stripping is idempotent. */
  lemma StripIdempotent(s: string)
    ensures Strip(Strip(s)) == Strip(s)
  {
    var r := Strip(s);
    assert TrimLeft(r) == r;
    assert TrimRight(r) == r;
  }

  /** Stripped text never ends in a newline. */
  lemma StripNoTrailingNewline(s: string)
    ensures Strip(s) == [] || Strip(s)[|Strip(s)| - 1] != '\n'
  {
  }

  /** Whitespace added before the text is removed by `lstrip`. */
  lemma {:induction false} TrimLeftPadding(pad: string, s: string)
    requires forall i | 0 <= i < |pad| :: IsSpace(pad[i])
    ensures TrimLeft(pad + s) == TrimLeft(s)
  {
    if pad != [] {
      assert (pad + s)[1..] == pad[1..] + s;
      TrimLeftPadding(pad[1..], s);
    } else {
      assert pad + s == s;
    }
  }

  /** Whitespace added after the text is removed by `rstrip`. */
  lemma {:induction false} TrimRightPadding(s: string, pad: string)
    requires forall i | 0 <= i < |pad| :: IsSpace(pad[i])
    ensures TrimRight(s + pad) == TrimRight(s)
  {
    if pad != [] {
      assert (s + pad)[..|s + pad| - 1] == s + pad[..|pad| - 1];
      TrimRightPadding(s, pad[..|pad| - 1]);
    } else {
      assert s + pad == s;
    }
  }

  /** `lstrip` of a text holding some non-space leaves what follows it alone. */
  lemma {:induction false} TrimLeftAppend(s: string, t: string)
    requires exists i | 0 <= i < |s| :: !IsSpace(s[i])
    ensures TrimLeft(s + t) == TrimLeft(s) + t
  {
    if IsSpace(s[0]) {
      assert (s + t)[1..] == s[1..] + t;
      var i :| 0 <= i < |s| && !IsSpace(s[i]);
      assert s[1..][i - 1] == s[i];
      TrimLeftAppend(s[1..], t);
    }
  }

  /** Surrounding a text with whitespace does not change what `strip` returns. */
  lemma StripIgnoresPadding(before: string, s: string, after: string)
    requires forall i | 0 <= i < |before| :: IsSpace(before[i])
    requires forall i | 0 <= i < |after| :: IsSpace(after[i])
    ensures Strip(before + s + after) == Strip(s)
  {
    assert before + s + after == before + (s + after);
    TrimLeftPadding(before, s + after);
    if exists i | 0 <= i < |s| :: !IsSpace(s[i]) {
      TrimLeftAppend(s, after);
      TrimRightPadding(TrimLeft(s), after);
    } else {
      assert forall i | 0 <= i < |s + after| :: IsSpace((s + after)[i]);
    }
  }

  /** The capital letters whose lower-case form `str.lower()` gives one code
      point higher by a fixed offset: ASCII `A`-`Z`, the Latin-1 capitals
      U+00C0-U+00DE except the sign U+00D7, and the Cyrillic capitals
      U+0400-U+042F. */
  predicate IsCapital(c: char)
  {
    || 'A' <= c <= 'Z'
    || ('\U{C0}' <= c <= '\U{DE}' && c != '\U{D7}')
    || '\U{400}' <= c <= '\U{42F}'
  }

  /** Python's lower-casing of one character, for the capitals above:
      U+0400-U+040F move up by 0x50, the others by 0x20. */
  function LowerChar(c: char): char
  {
    if '\U{400}' <= c <= '\U{40F}' then (c as int + 0x50) as char
    else if IsCapital(c) then (c as int + 0x20) as char
    else c
  }

  /** A capital is lowered to a different, non-capital letter, so both
      spellings of the letter lower alike. */
  lemma LowerCharOfCapital(c: char)
    requires IsCapital(c)
    ensures LowerChar(c) != c && !IsCapital(LowerChar(c))
    ensures LowerChar(LowerChar(c)) == LowerChar(c)
  {
  }

  /** `s.lower()`, for the capitals `LowerChar` covers. */
  function Lower(s: string): (r: string)
    ensures |r| == |s|
  {
    seq(|s|, i requires 0 <= i < |s| => LowerChar(s[i]))
  }

  /** Lowering twice is lowering once. */
  lemma LowerIdempotent(s: string)
    ensures Lower(Lower(s)) == Lower(s)
  {
    forall i | 0 <= i < |s|
      ensures Lower(Lower(s))[i] == Lower(s)[i]
    {
    }
  }

  /** Case folding neither creates nor removes whitespace. */
  lemma LowerCharSpace(c: char)
    ensures IsSpace(LowerChar(c)) == IsSpace(c)
  {
  }

  lemma {:induction false} LowerTrimLeft(s: string)
    ensures Lower(TrimLeft(s)) == TrimLeft(Lower(s))
  {
    if s != [] {
      LowerCharSpace(s[0]);
      assert Lower(s)[0] == LowerChar(s[0]);
      if IsSpace(s[0]) {
        assert Lower(s)[1..] == Lower(s[1..]);
        LowerTrimLeft(s[1..]);
      }
    }
  }

  lemma {:induction false} LowerTrimRight(s: string)
    ensures Lower(TrimRight(s)) == TrimRight(Lower(s))
  {
    if s != [] {
      LowerCharSpace(s[|s| - 1]);
      assert Lower(s)[|s| - 1] == LowerChar(s[|s| - 1]);
      if IsSpace(s[|s| - 1]) {
        assert Lower(s)[..|s| - 1] == Lower(s[..|s| - 1]);
        LowerTrimRight(s[..|s| - 1]);
      }
    }
  }

  /** Stripping and case folding commute. */
  lemma LowerStripCommute(s: string)
    ensures Lower(Strip(s)) == Strip(Lower(s))
  {
    LowerTrimLeft(s);
    LowerTrimRight(TrimLeft(s));
  }

  /** `s.startswith(p)`. */
  predicate StartsWith(s: string, p: string)
  {
    |p| <= |s| && s[..|p|] == p
  }

  /** Python's slice `s[:n]`: a prefix of `s`; a negative `n` counts from the end. */
  function SliceTo<T>(s: seq<T>, n: int): (r: seq<T>)
    ensures |r| == (if n >= 0 then (if n <= |s| then n else |s|)
                    else (if |s| + n >= 0 then |s| + n else 0))
    ensures r == s[..|r|]
  {
    if n >= 0 then (if n <= |s| then s[..n] else s)
    else if |s| + n >= 0 then s[..|s| + n]
    else []
  }

  /** For a non-negative bound, slicing twice is slicing once. */
  lemma SliceToIdempotent<T>(s: seq<T>, n: int)
    requires n >= 0
    ensures SliceTo(SliceTo(s, n), n) == SliceTo(s, n)
  {
  }

  /** For a negative bound, slicing twice drops the last `-n` elements twice. */
  lemma SliceToTwiceNegative<T>(s: seq<T>, n: int)
    requires n < 0 && |s| + 2 * n >= 0
    ensures SliceTo(SliceTo(s, n), n) == s[..|s| + 2 * n]
  {
  }

  /** The part of `s` before its first colon. */
  function BeforeColon(s: string): (r: string)
    ensures |r| <= |s| && r == s[..|r|]
    ensures ':' !in r
    ensures |r| < |s| ==> s[|r|] == ':'
  {
    if s == [] || s[0] == ':' then [] else [s[0]] + BeforeColon(s[1..])
  }

  /** The part of `s` after its first colon, or None when `s` has none. */
  function AfterColon(s: string): (r: Option<string>)
    ensures r.Some? <==> ':' in s
    ensures r.Some? ==> s == BeforeColon(s) + ":" + r.value
  {
    var b := BeforeColon(s);
    if |b| < |s| then
      assert s == b + ":" + s[|b| + 1..];
      Some(s[|b| + 1..])
    else
      assert b == s;
      None
  }

  /** `f` is the text of `s` between the colon at `i` and the next colon or
      the end. */
  predicate FieldAfter(s: string, i: int, f: string)
  {
    && 0 <= i && i + 1 + |f| <= |s|
    && s[i] == ':'
    && f == s[i + 1..i + 1 + |f|]
    && (i + 1 + |f| == |s| || s[i + 1 + |f|] == ':')
  }

  /** `s.split(":")[1]`: the second colon-separated field, or None where
      Python raises IndexError. */
  function SecondField(s: string): (r: Option<string>)
    ensures r.Some? <==> ':' in s
    ensures r.Some? ==> ':' !in r.value
    ensures r.Some? ==> FieldAfter(s, |BeforeColon(s)|, r.value)
  {
    match AfterColon(s)
    case None => None
    case Some(rest) =>
      var i := |BeforeColon(s)|;
      var f := BeforeColon(rest);
      assert rest == s[i + 1..];
      assert f == s[i + 1..i + 1 + |f|];
      Some(f)
  }

  /** The second field of `head + ":" + tail` is `tail`, when neither contains a colon. */
  lemma SecondFieldOf(head: string, tail: string)
    requires ':' !in head && ':' !in tail
    ensures SecondField(head + ":" + tail) == Some(tail)
  {
    var s := head + ":" + tail;
    BeforeColonOf(head, ":" + tail);
    assert s[|head| + 1..] == tail;
    BeforeColonOf(tail, []);
    assert tail + [] == tail;
  }

  /** `BeforeColon` stops exactly at the first colon. */
  lemma {:induction false} BeforeColonOf(head: string, rest: string)
    requires ':' !in head
    requires rest == [] || rest[0] == ':'
    ensures BeforeColon(head + rest) == head
  {
    if head != [] {
      assert (head + rest)[1..] == head[1..] + rest;
      BeforeColonOf(head[1..], rest);
    } else {
      assert head + rest == rest;
    }
  }

  predicate IsDigit(c: char)
  {
    '0' <= c <= '9'
  }

  function DigitChar(d: nat): (c: char)
    requires d < 10
    ensures IsDigit(c) && c as int - '0' as int == d
  {
    ('0' as int + d) as char
  }

  function DigitValue(c: char): (d: nat)
    requires IsDigit(c)
    ensures d < 10 && DigitChar(d) == c
  {
    c as int - '0' as int
  }

  /** The decimal text of `n`, as `str(n)` writes it (no leading zeros). */
  function NatToDecimal(n: nat): (s: string)
    ensures |s| >= 1 && forall i | 0 <= i < |s| :: IsDigit(s[i])
    decreases n
  {
    if n < 10 then [DigitChar(n)] else NatToDecimal(n / 10) + [DigitChar(n % 10)]
  }

  /** `str(n)` for any integer. */
  function IntToDecimal(n: int): string
  {
    if n < 0 then "-" + NatToDecimal(-n) else NatToDecimal(n)
  }

  /** The value of a string of decimal digits. */
  function DigitsValue(s: string): nat
    requires forall i | 0 <= i < |s| :: IsDigit(s[i])
  {
    if s == [] then 0 else DigitsValue(s[..|s| - 1]) * 10 + DigitValue(s[|s| - 1])
  }

  /** `int(s)` for an optional sign followed by ASCII digits; None where
      Python raises ValueError. */
  function ParseInt(s: string): (r: Option<int>)
    ensures r.Some? ==> s != []
  {
    if s == [] then None
    else
      var sign, digits := (if s[0] == '-' then -1 else 1), (if s[0] == '-' || s[0] == '+' then s[1..] else s);
      if digits != [] && forall i | 0 <= i < |digits| :: IsDigit(digits[i])
      then Some(sign * DigitsValue(digits))
      else None
  }

  /** Reading back the decimal text of a natural number gives that number. */
  lemma {:induction false} DecimalRoundTrip(n: nat)
    ensures DigitsValue(NatToDecimal(n)) == n
    decreases n
  {
    var s := NatToDecimal(n);
    if n >= 10 {
      DecimalRoundTrip(n / 10);
      assert s[..|s| - 1] == NatToDecimal(n / 10);
    }
  }

  /** `int(str(n)) == n` for every integer. */
  lemma ParseIntRoundTrip(n: int)
    ensures ParseInt(IntToDecimal(n)) == Some(n)
  {
    var s := IntToDecimal(n);
    if n < 0 {
      var digits := NatToDecimal(-n);
      DecimalRoundTrip(-n);
      assert s[0] == '-' && s[1..] == digits;
      assert ParseInt(s) == Some(-1 * DigitsValue(digits));
    } else {
      DecimalRoundTrip(n);
      assert IsDigit(s[0]);
      assert ParseInt(s) == Some(DigitsValue(s));
    }
  }
}
