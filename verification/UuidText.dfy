/** The canonical text of an identifier (8-4-4-4-12 lower-case hexadecimal digits) and
    the parser that reads it back. */
module UuidText {
  import opened Basics

  const DIGITS := "0123456789abcdef"

  function DigitValue(c: char): Option<nat> {
    if '0' <= c <= '9' then Some(c as int - '0' as int)
    else if 'a' <= c <= 'f' then Some(c as int - 'a' as int + 10)
    else if 'A' <= c <= 'F' then Some(c as int - 'A' as int + 10)
    else None
  }

  function Power16(n: nat): (p: nat)
    ensures p > 0
  {
    if n == 0 then 1 else 16 * Power16(n - 1)
  }

  /** Exactly `width` hexadecimal digits of `n`, most significant first. */
  function Hex(n: nat, width: nat): (s: string)
    ensures |s| == width && '-' !in s
  {
    if width == 0 then "" else Hex(n / 16, width - 1) + [DIGITS[n % 16]]
  }

  function FromHex(s: string): Option<nat> {
    if s == "" then Some(0)
    else
      var high, low := FromHex(s[..|s| - 1]), DigitValue(s[|s| - 1]);
      if high.None? || low.None? then None else Some(16 * high.value + low.value)
  }

  function WithoutDashes(s: string): string {
    if s == "" then ""
    else (if s[0] == '-' then "" else [s[0]]) + WithoutDashes(s[1..])
  }

  function Print(u: Uuid): string {
    var h := Hex(u, 32);
    h[..8] + "-" + h[8..12] + "-" + h[12..16] + "-" + h[16..20] + "-" + h[20..]
  }

  function Parse(s: string): Option<Uuid> {
    var h := WithoutDashes(s);
    if |h| != 32 then None
    else
      var n := FromHex(h);
      if n.None? || n.value >= UUID_BOUND then None else Some(n.value)
  }

  lemma {:induction false} DigitReadsBack(d: nat)
    requires d < 16
    ensures DigitValue(DIGITS[d]) == Some(d)
  {
    if d < 10 {
      assert DIGITS[d] == ('0' as int + d) as char;
    } else {
      assert DIGITS[d] == ('a' as int + d - 10) as char;
    }
  }

  lemma {:induction false} HexReadsBack(n: nat, width: nat)
    requires n < Power16(width)
    ensures FromHex(Hex(n, width)) == Some(n)
  {
    if width > 0 {
      var s := Hex(n, width);
      assert s[..width - 1] == Hex(n / 16, width - 1);
      HexReadsBack(n / 16, width - 1);
      DigitReadsBack(n % 16);
    }
  }

  lemma {:induction false} DashesGone(a: string, b: string)
    requires '-' !in a
    ensures WithoutDashes(a + "-" + b) == a + WithoutDashes(b)
  {
    if a == "" {
      assert a + "-" + b == "-" + b;
    } else {
      assert (a + "-" + b)[1..] == a[1..] + "-" + b;
      DashesGone(a[1..], b);
    }
  }

  lemma {:induction false} NoDashesKept(a: string)
    requires '-' !in a
    ensures WithoutDashes(a) == a
  {
    if a != "" {
      NoDashesKept(a[1..]);
    }
  }

  /** Dropping the dashes leaves the thirty-two digits. */
  lemma {:induction false} PrintedDigits(h: string)
    requires |h| == 32 && '-' !in h
    ensures WithoutDashes(h[..8] + "-" + h[8..12] + "-" + h[12..16] + "-" + h[16..20] + "-" + h[20..]) == h
  {
    TailDigits(h[12..]);
    var rest := h[12..16] + "-" + h[16..20] + "-" + h[20..];
    assert h[12..][..4] == h[12..16] && h[12..][4..8] == h[16..20] && h[12..][8..] == h[20..];
    DashesGone(h[8..12], rest);
    DashesGone(h[..8], h[8..12] + "-" + rest);
    assert h[..8] + "-" + h[8..12] + "-" + h[12..16] + "-" + h[16..20] + "-" + h[20..] ==
           h[..8] + "-" + (h[8..12] + "-" + rest);
    assert h[..8] + (h[8..12] + h[12..]) == h;
  }

  lemma {:induction false} TailDigits(s: string)
    requires |s| == 20 && '-' !in s
    ensures WithoutDashes(s[..4] + "-" + s[4..8] + "-" + s[8..]) == s
  {
    NoDashesKept(s[8..]);
    DashesGone(s[4..8], s[8..]);
    DashesGone(s[..4], s[4..8] + "-" + s[8..]);
    assert s[..4] + "-" + s[4..8] + "-" + s[8..] == s[..4] + "-" + (s[4..8] + "-" + s[8..]);
    assert s[..4] + (s[4..8] + s[8..]) == s;
  }

  /** Parsing the printed text gives back the identifier. */
  lemma {:induction false} PrintParses(u: Uuid)
    ensures Parse(Print(u)) == Some(u)
  {
    PrintedDigits(Hex(u, 32));
    PowerIs();
    HexReadsBack(u, 32);
  }

  lemma {:induction false} PowerIs()
    ensures Power16(32) == UUID_BOUND
  {
    assert Power16(8) == 0x1_0000_0000 by {
      assert Power16(4) == 0x1_0000 by { assert Power16(2) == 0x100; }
      assert Power16(6) == 0x100_0000;
    }
    PowerAdds(8, 8);
    PowerAdds(16, 16);
  }

  lemma {:induction false} PowerAdds(m: nat, n: nat)
    ensures Power16(m + n) == Power16(m) * Power16(n)
  {
    if n > 0 {
      PowerAdds(m, n - 1);
      assert Power16(m + n) == 16 * Power16(m + (n - 1));
      assert Power16(m) * (16 * Power16(n - 1)) == 16 * (Power16(m) * Power16(n - 1));
    }
  }
}
