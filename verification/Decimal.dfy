/** Decimal numerals: what `usize` prints and what `parse::<usize>` reads back. */
module Decimal {
  import opened Scanners

  const USIZE_MAX: nat := 0xFFFF_FFFF_FFFF_FFFF
  type usize = n: nat | n <= USIZE_MAX

  predicate Numeral(s: string) { Word(s, Digits) }

  function DigitValue(c: char): nat
    requires IsDigit(c)
  {
    c as int - '0' as int
  }

  function DigitChar(d: nat): (c: char)
    requires d < 10
    ensures IsDigit(c) && DigitValue(c) == d
  {
    ('0' as int + d) as char
  }

  function ParseNat(s: string): nat
    requires forall i :: 0 <= i < |s| ==> IsDigit(s[i])
  {
    if s == "" then 0 else 10 * ParseNat(s[..|s| - 1]) + DigitValue(s[|s| - 1])
  }

  function PrintNat(n: nat): (s: string)
    ensures Numeral(s)
  {
    if n < 10 then [DigitChar(n)] else PrintNat(n / 10) + [DigitChar(n % 10)]
  }

  /** How many zeros lead `s`, not counting the last digit. */
  function LeadingZeros(s: string): (n: nat)
    requires s != ""
    ensures n < |s| && forall i :: 0 <= i < n ==> s[i] == '0'
    ensures n + 1 < |s| ==> s[n] != '0'
  {
    if |s| > 1 && s[0] == '0' then 1 + LeadingZeros(s[1..]) else 0
  }

  /** `s` without its leading zeros; a lone "0" stays. */
  function StripZeros(s: string): (r: string)
    requires Numeral(s)
    ensures Numeral(r) && (r == "0" || r[0] != '0')
  {
    s[LeadingZeros(s)..]
  }

  lemma {:induction false} ParsePrint(n: nat)
    ensures ParseNat(PrintNat(n)) == n
  {
    if n >= 10 {
      ParsePrint(n / 10);
      assert PrintNat(n)[..|PrintNat(n)| - 1] == PrintNat(n / 10);
    }
  }

  lemma {:induction false} LeadingZero(s: string)
    requires Numeral(s) && |s| > 1 && s[0] == '0'
    ensures ParseNat(s) == ParseNat(s[1..])
  {
    var front := s[..|s| - 1];
    assert s[1..][..|s| - 2] == front[1..];
    if |s| > 2 {
      LeadingZero(front);
    } else {
      assert front == ['0'] && front[..0] == "";
    }
  }

  lemma {:induction false} Positive(s: string)
    requires Numeral(s) && s[0] != '0'
    ensures ParseNat(s) >= 1
  {
    if |s| == 1 {
      assert s[..0] == "";
    } else {
      Positive(s[..|s| - 1]);
    }
  }

  lemma {:induction false} PrintParseStripped(s: string)
    requires Numeral(s) && (s == "0" || s[0] != '0')
    ensures PrintNat(ParseNat(s)) == s
  {
    var front := s[..|s| - 1];
    if |s| == 1 {
      assert front == "";
      assert ParseNat(front) == 0;
    } else {
      PrintParseStripped(front);
      Positive(front);
      assert s == front + [s[|s| - 1]];
    }
  }

  /** Printing what was read gives the numeral back without its leading zeros. */
  lemma {:induction false} PrintParse(s: string)
    requires Numeral(s)
    ensures PrintNat(ParseNat(s)) == StripZeros(s)
  {
    if |s| > 1 && s[0] == '0' {
      LeadingZero(s);
      PrintParse(s[1..]);
      assert s[1..][LeadingZeros(s[1..])..] == s[LeadingZeros(s)..];
    } else {
      PrintParseStripped(s);
    }
  }

  // ----- what numerals mean

  /** The numeral denotes the number: its last character is the digit for the number's last digit, and the
      rest, if there is any, denotes what is in front of that. */
  ghost predicate Denotes(s: string, n: nat) {
    && s != "" && s[|s| - 1] == "0123456789"[n % 10]
    && (if |s| == 1 then n < 10 else Denotes(s[..|s| - 1], n / 10))
  }

  lemma DigitTable(k: nat)
    requires k < 10
    ensures DigitChar(k) == "0123456789"[k]
    ensures IsDigit("0123456789"[k]) && DigitValue("0123456789"[k]) == k
  {}

  /** A digit reads as its place in the table, and the table's character is what it prints as. */
  lemma OneDigit(k: nat)
    requires k < 10
    ensures ParseNat(["0123456789"[k]]) == k && PrintNat(k) == ["0123456789"[k]]
  {
    DigitTable(k);
    assert ["0123456789"[k]][..0] == "";
  }

  /** One more digit makes it ten times as much and the digit. */
  lemma OneMoreDigit(s: string, n: nat, k: nat)
    requires Numeral(s) && k < 10
    ensures ParseNat(s + ["0123456789"[k]]) == 10 * ParseNat(s) + k
    ensures n > 0 ==> PrintNat(10 * n + k) == PrintNat(n) + ["0123456789"[k]]
  {
    DigitTable(k);
    assert (s + ["0123456789"[k]])[..|s|] == s;
  }

  /** Reading gives exactly what is denoted. */
  lemma {:induction false} ReadsExactly(s: string, n: nat)
    ensures Denotes(s, n) <==> Numeral(s) && ParseNat(s) == n
  {
    if s != "" {
      var front, last := s[..|s| - 1], s[|s| - 1];
      DigitTable(n % 10);
      if IsDigit(last) {
        DigitTable(DigitValue(last));
      }
      if |s| == 1 {
        assert front == "" && ParseNat(front) == 0;
      } else {
        ReadsExactly(front, n / 10);
        assert Numeral(s) <==> Numeral(front) && IsDigit(last);
      }
    }
  }

  lemma NonZeroPrints(n: nat)
    requires n > 0
    ensures PrintNat(n) != "0"
  {
    ParsePrint(n);
    OneDigit(0);
    assert ParseNat("0") == 0;
  }

  /** What a number prints as denotes it, without a leading zero. */
  lemma {:induction false} PrintsDenoting(n: nat)
    ensures Denotes(PrintNat(n), n) && (PrintNat(n) == "0" || PrintNat(n)[0] != '0')
  {
    ParsePrint(n);
    ReadsExactly(PrintNat(n), n);
    DigitTable(n % 10);
    if n >= 10 {
      PrintsDenoting(n / 10);
      NonZeroPrints(n / 10);
    }
  }
}
