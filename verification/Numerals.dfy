/** Whole numbers as they print. */
module Numerals {
  function Numeral(n: nat): (s: string)
    ensures s != "" && forall k :: 0 <= k < |s| ==> '0' <= s[k] <= '9'
  {
    if n < 10 then [(n as char) + '0'] else Numeral(n / 10) + [((n % 10) as char) + '0']
  }

  /** What a row of digits reads as, in tens. */
  function Reads(s: string): int {
    if s == "" then 0 else 10 * Reads(s[..|s| - 1]) + (s[|s| - 1] as int - '0' as int)
  }

  /** A number prints as the digits that read as it, the first no zero but zero's own. */
  lemma {:induction false} PrintsWhatReads(n: nat)
    ensures Reads(Numeral(n)) == n && (n > 0 ==> Numeral(n)[0] != '0')
    decreases n
  {
    var s := Numeral(n);
    if n < 10 {
      assert s[..0] == "" && s[0] as int == n + '0' as int;
    } else {
      PrintsWhatReads(n / 10);
      assert s[..|s| - 1] == Numeral(n / 10) && s[0] == Numeral(n / 10)[0];
    }
  }

  lemma {:induction false} NumeralsDiffer(m: nat, n: nat)
    ensures Numeral(m) == Numeral(n) ==> m == n
    decreases m
  {
    if Numeral(m) == Numeral(n) {
      var s := Numeral(m);
      assert s[|s| - 1] == ((m % 10) as char) + '0' && s[|s| - 1] == ((n % 10) as char) + '0';
      if m >= 10 && n >= 10 {
        assert s[..|s| - 1] == Numeral(m / 10) && s[..|s| - 1] == Numeral(n / 10);
        NumeralsDiffer(m / 10, n / 10);
      }
    }
  }
}
