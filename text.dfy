/** The string operations the bot relies on: `str.lower()`, the substring test
    `a in b`, and `int(text)` / `str(n)` for the decimal ids it stores as text. */
module Text {
  import opened Basics

  /** `str.lower()` on one character (ASCII letters only). */
  function LowerChar(c: char): char {
    if 'A' <= c <= 'Z' then (c as int + 32) as char else c
  }

  /** `str.lower()` on a whole string. */
  function Lower(s: string): string {
    seq(|s|, i requires 0 <= i < |s| => LowerChar(s[i]))
  }

  /** Case-insensitive equality: `a.lower() == b.lower()`. */
  predicate EqualsIgnoringCase(a: string, b: string) {
    Lower(a) == Lower(b)
  }

  /** `needle` sits in `hay` starting at position `k`. */
  predicate OccursAt(needle: string, hay: string, k: int) {
    0 <= k && k + |needle| <= |hay| && hay[k..k + |needle|] == needle
  }

  /** Python's `needle in hay` for strings, computed by sliding along `hay`. */
  function IsInfix(needle: string, hay: string): bool
    decreases |hay|
  {
    needle <= hay || (|hay| > 0 && IsInfix(needle, hay[1..]))
  }

  /** The sliding search finds `needle` exactly when it occurs somewhere in `hay`. */
  lemma {:induction false} IsInfixCorrect(needle: string, hay: string)
    ensures IsInfix(needle, hay) <==> exists k :: OccursAt(needle, hay, k)
    decreases |hay|
  {
    if exists k :: OccursAt(needle, hay, k) {
      var k :| OccursAt(needle, hay, k);
      if k == 0 {
        assert hay[..|needle|] == needle;
      } else {
        assert hay[1..][k - 1..k - 1 + |needle|] == hay[k..k + |needle|];
        assert OccursAt(needle, hay[1..], k - 1);
        IsInfixCorrect(needle, hay[1..]);
      }
    }
    if IsInfix(needle, hay) {
      if needle <= hay {
        assert OccursAt(needle, hay, 0);
      } else {
        IsInfixCorrect(needle, hay[1..]);
        var k :| OccursAt(needle, hay[1..], k);
        assert hay[1..][k..k + |needle|] == hay[k + 1..k + 1 + |needle|];
        assert OccursAt(needle, hay, k + 1);
      }
    }
  }

  /** Case-insensitive substring test: `needle.lower() in hay.lower()`. */
  predicate ContainsIgnoringCase(needle: string, hay: string) {
    IsInfix(Lower(needle), Lower(hay))
  }

  predicate IsDigit(c: char) {
    '0' <= c <= '9'
  }

  predicate AllDigits(s: string) {
    forall i :: 0 <= i < |s| ==> IsDigit(s[i])
  }

  /** The value of a string of decimal digits, most significant first. */
  function DigitsValue(s: string): nat
    requires AllDigits(s)
    decreases |s|
  {
    if |s| == 0 then 0 else DigitsValue(s[..|s| - 1]) * 10 + (s[|s| - 1] as int - '0' as int)
  }

  /** `int(text)`: an optional sign followed by at least one decimal digit;
      anything else makes Python raise `ValueError` (here `None`). */
  function ParseInt(s: string): Option<int> {
    if |s| > 0 && (s[0] == '-' || s[0] == '+') then
      if |s| > 1 && AllDigits(s[1..]) then
        var v: int := DigitsValue(s[1..]);
        Some(if s[0] == '-' then -v else v)
      else None
    else if |s| > 0 && AllDigits(s) then Some(DigitsValue(s))
    else None
  }

  /** Decimal digits of a natural number, without leading zeros. */
  function NatDigits(n: nat): string
    decreases n
  {
    if n < 10 then [('0' as int + n) as char] else NatDigits(n / 10) + [('0' as int + n % 10) as char]
  }

  /** `str(n)` for an integer. */
  function ShowInt(n: int): string {
    if n < 0 then "-" + NatDigits(-n) else NatDigits(n)
  }

  lemma {:induction false} NatDigitsValue(n: nat)
    ensures |NatDigits(n)| > 0 && AllDigits(NatDigits(n)) && DigitsValue(NatDigits(n)) == n
    ensures NatDigits(n)[0] != '-' && NatDigits(n)[0] != '+'
    decreases n
  {
    if n >= 10 {
      NatDigitsValue(n / 10);
      var s := NatDigits(n / 10) + [('0' as int + n % 10) as char];
      assert s[..|s| - 1] == NatDigits(n / 10);
    }
  }

  /** Reading back what `str(n)` wrote gives `n`: the ids the bot stores as text
      are recovered exactly by `int(...)`. */
  lemma ParseShowInt(n: int)
    ensures ParseInt(ShowInt(n)) == Some(n)
  {
    if n < 0 {
      NatDigitsValue(-n);
      assert ShowInt(n)[1..] == NatDigits(-n);
    } else {
      NatDigitsValue(n);
    }
  }
}
