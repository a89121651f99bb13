/**
 * The string operations the front end applies to names, plates and search boxes:
 * `toLowerCase`/`toUpperCase` (ASCII letters), `trim`, `includes`,
 * `toString` of a number and `padStart(2, '0')`.
 */
module Text {

  import opened Wrappers

  /** The characters JavaScript's `trim` removes (white space and line terminators). */
  predicate IsWhite(c: char)
  {
    c == ' ' || c == '\t' || c == '\n' || c == '\r'
    || c as int == 0x0B || c as int == 0x0C || c as int == 0xA0 || c as int == 0x1680
    || (0x2000 <= c as int <= 0x200A) || c as int == 0x2028 || c as int == 0x2029
    || c as int == 0x202F || c as int == 0x205F || c as int == 0x3000 || c as int == 0xFEFF
  }

  predicate AllWhite(s: string)
  {
    forall i :: 0 <= i < |s| ==> IsWhite(s[i])
  }

  function TrimStart(s: string): (r: string)
    ensures |r| <= |s|
    ensures r == [] || !IsWhite(r[0])
    ensures r == [] <==> AllWhite(s)
  {
    if s != [] && IsWhite(s[0]) then TrimStart(s[1..]) else s
  }

  function TrimEnd(s: string): (r: string)
    ensures |r| <= |s|
    ensures r == [] || !IsWhite(r[|r| - 1])
    ensures r == [] <==> AllWhite(s)
    ensures forall i :: 0 <= i < |r| ==> r[i] == s[i]
  {
    if s != [] && IsWhite(s[|s| - 1]) then TrimEnd(s[..|s| - 1]) else s
  }

  /** `s.trim()`. */
  function Trim(s: string): (r: string)
  {
    TrimEnd(TrimStart(s))
  }

  /** `!s.trim()`: the text is empty or white space only. */
  predicate IsBlank(s: string)
  {
    Trim(s) == ""
  }

  lemma TrimSpec(s: string)
    ensures |Trim(s)| <= |s|
    ensures Trim(s) == [] || (!IsWhite(Trim(s)[0]) && !IsWhite(Trim(s)[|Trim(s)| - 1]))
    ensures IsBlank(s) <==> AllWhite(s)
  {
    var t := TrimStart(s);
    if Trim(s) != [] {
      assert Trim(s)[0] == t[0];
    }
  }

  /** Trimming twice is trimming once. */
  lemma TrimIdempotent(s: string)
    ensures Trim(Trim(s)) == Trim(s)
  {
    TrimSpec(s);
    var t := Trim(s);
    if t != [] {
      assert TrimStart(t) == t;
      assert TrimEnd(t) == t;
    }
  }

  function LowerChar(c: char): char
  {
    if 'A' <= c <= 'Z' then (c as int + 32) as char else c
  }

  function UpperChar(c: char): char
  {
    if 'a' <= c <= 'z' then (c as int - 32) as char else c
  }

  /** `s.toLowerCase()` on ASCII letters. */
  function Lower(s: string): (r: string)
    ensures |r| == |s|
    ensures forall i :: 0 <= i < |s| ==> r[i] == LowerChar(s[i])
  {
    seq(|s|, i requires 0 <= i < |s| => LowerChar(s[i]))
  }

  /** `s.toUpperCase()` on ASCII letters. */
  function Upper(s: string): (r: string)
    ensures |r| == |s|
    ensures forall i :: 0 <= i < |s| ==> r[i] == UpperChar(s[i])
  {
    seq(|s|, i requires 0 <= i < |s| => UpperChar(s[i]))
  }

  /** `h.includes(n)`: `n` occurs in `h` as a contiguous piece. */
  predicate Includes(h: string, n: string)
  {
    n <= h || (h != [] && Includes(h[1..], n))
  }

  /** Every text includes the empty text, and itself. */
  lemma IncludesTrivial(h: string)
    ensures Includes(h, "")
    ensures Includes(h, h)
  {
  }

  /** A text occurring at position `k` is included. */
  lemma {:induction false} IncludesAt(h: string, n: string, k: nat)
    requires k + |n| <= |h| && h[k..k + |n|] == n
    ensures Includes(h, n)
    decreases k
  {
    if k == 0 {
      assert n <= h;
    } else {
      assert h[1..][k - 1..k - 1 + |n|] == h[k..k + |n|];
      IncludesAt(h[1..], n, k - 1);
    }
  }

  /** A text missing one of the characters of `n` does not include `n`. */
  lemma {:induction false} SinCaracterNoIncluye(h: string, n: string, c: char)
    requires c in n && c !in h
    ensures !Includes(h, n)
    decreases |h|
  {
    if h != [] {
      SinCaracterNoIncluye(h[1..], n, c);
    }
  }

  /** `n` occurs in `h` starting at position `k`. */
  predicate EnPosicion(h: string, n: string, k: nat)
  {
    k + |n| <= |h| && h[k..k + |n|] == n
  }

  /** A text occurring at no position is not included. */
  lemma {:induction false} NoIncluyeEnNingunaPosicion(h: string, n: string)
    requires forall k: nat :: !EnPosicion(h, n, k)
    ensures !Includes(h, n)
    decreases |h|
  {
    assert !EnPosicion(h, n, 0);
    if h != [] {
      forall k: nat
        ensures !EnPosicion(h[1..], n, k)
      {
        assert !EnPosicion(h, n, k + 1);
        if k + |n| <= |h[1..]| {
          assert h[1..][k..k + |n|] == h[k + 1..k + 1 + |n|];
        }
      }
      NoIncluyeEnNingunaPosicion(h[1..], n);
    }
  }

  /** A text is included in any text it ends. */
  lemma IncluyeAlFinal(a: string, n: string)
    ensures Includes(a + n, n)
  {
    assert (a + n)[|a|..|a| + |n|] == n;
    IncludesAt(a + n, n, |a|);
  }

  /** A text placed between two others is included in the result. */
  lemma IncluyeEnMedio(a: string, n: string, b: string)
    ensures Includes(a + n + b, n)
  {
    assert (a + n + b)[|a|..|a| + |n|] == n;
    IncludesAt(a + n + b, n, |a|);
  }

  /** A text only includes texts no longer than itself. */
  lemma {:induction false} IncludesLength(h: string, n: string)
    requires Includes(h, n)
    ensures |n| <= |h|
    decreases |h|
  {
    if !(n <= h) {
      IncludesLength(h[1..], n);
    }
  }

  function DigitChar(d: nat): char
    requires d < 10
  {
    "0123456789"[d]
  }

  predicate IsDigit(c: char)
  {
    '0' <= c <= '9'
  }

  function DigitValue(c: char): nat
    requires IsDigit(c)
  {
    c as int - '0' as int
  }

  predicate AllDigits(s: string)
  {
    forall i :: 0 <= i < |s| ==> IsDigit(s[i])
  }

  /** The decimal number a text of digits spells. */
  function ParseDigits(s: string): nat
    requires forall i :: 0 <= i < |s| ==> IsDigit(s[i])
  {
    if s == [] then 0 else ParseDigits(s[..|s| - 1]) * 10 + DigitValue(s[|s| - 1])
  }

  /** `String(n)` for a non-negative integer: its decimal digits, no leading zero. */
  function NatToString(n: nat): (r: string)
    ensures |r| >= 1
    ensures forall i :: 0 <= i < |r| ==> IsDigit(r[i])
    ensures |r| > 1 ==> r[0] != '0'
    ensures n < 10 <==> |r| == 1
    ensures 10 <= n < 100 ==> |r| == 2
  {
    if n < 10 then [DigitChar(n)] else NatToString(n / 10) + [DigitChar(n % 10)]
  }

  /** Reading back the digits of `NatToString(n)` gives `n`. */
  lemma {:induction false} NatToStringRoundTrip(n: nat)
    ensures ParseDigits(NatToString(n)) == n
  {
    var r := NatToString(n);
    if n >= 10 {
      var q, d := n / 10, n % 10;
      assert r == NatToString(q) + [DigitChar(d)];
      assert r[..|r| - 1] == NatToString(q) && r[|r| - 1] == DigitChar(d);
      NatToStringRoundTrip(q);
      DigitRoundTrip(d);
      assert ParseDigits(r) == q * 10 + d;
      assert n == q * 10 + d;
    } else {
      DigitRoundTrip(n);
      assert r == [DigitChar(n)];
      assert r[..0] == [];
    }
  }

  /** `String(i)` / `${i}` for any integer. */
  function IntToString(i: int): (r: string)
    ensures i >= 0 ==> r == NatToString(i)
    ensures i < 0 ==> r == "-" + NatToString(-i)
  {
    if i < 0 then "-" + NatToString(-i) else NatToString(i)
  }

  /** `String(n).padStart(2, '0')`. */
  function Pad2(n: nat): (r: string)
    ensures n < 100 ==> |r| == 2
    ensures forall i :: 0 <= i < |r| ==> IsDigit(r[i])
  {
    var s := NatToString(n);
    if |s| < 2 then "0" + s else s
  }

  lemma DigitRoundTrip(d: nat)
    requires d < 10
    ensures IsDigit(DigitChar(d)) && DigitValue(DigitChar(d)) == d
  {
  }

  lemma ParseTwoDigits(a: char, b: char)
    requires IsDigit(a) && IsDigit(b)
    ensures ParseDigits([a, b]) == DigitValue(a) * 10 + DigitValue(b)
  {
    var s := [a, b];
    assert s[..|s| - 1] == [a];
    assert [a][..0] == [];
    assert ParseDigits([a]) == ParseDigits([]) * 10 + DigitValue(a);
  }

  /** The two padded digits read back as the number they pad. */
  lemma Pad2RoundTrip(n: nat)
    requires n < 100
    ensures ParseDigits(Pad2(n)) == n
  {
    var hi, lo := n / 10, n % 10;
    DigitRoundTrip(hi);
    DigitRoundTrip(lo);
    if n < 10 {
      assert Pad2(n) == ['0', DigitChar(n)];
      ParseTwoDigits('0', DigitChar(n));
    } else {
      assert NatToString(hi) == [DigitChar(hi)];
      assert Pad2(n) == [DigitChar(hi), DigitChar(lo)];
      ParseTwoDigits(DigitChar(hi), DigitChar(lo));
    }
  }

  /** `x?.trim() || null`: a missing or blank text becomes `null`, anything else is trimmed. */
  function TrimOrNull(o: Option<string>): (r: Option<string>)
    ensures r.None? <==> (o.None? || IsBlank(o.value))
    ensures r.Some? ==> r.value == Trim(o.value) && !IsBlank(r.value)
  {
    if o.None? || IsBlank(o.value) then None else (TrimIdempotent(o.value); Some(Trim(o.value)))
  }

  /** `x?.trim() || ''`. */
  function TrimOrEmpty(o: Option<string>): (r: string)
    ensures o.None? ==> r == ""
    ensures o.Some? ==> r == Trim(o.value)
  {
    if o.None? then "" else Trim(o.value)
  }
}
