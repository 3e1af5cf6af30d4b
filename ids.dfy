/**
 * Identifiers used by the bracket engine: entrant ids, the tournament short
 * code and the match ids built from it (index.js:339 and index.js:1147).
 */
module Ids {

  /**
   * An entrant: a platform user id, a team leader's id, or an `ext_...` id made
   * up for a player without an account. These are never empty, so in the source
   * an entrant id is always truthy and `!p2` means "there is no second entrant".
   */
  type EntrantId = s: string | s != [] witness "0"

  predicate IsDigit(c: char) {
    '0' <= c <= '9'
  }

  predicate AllDigits(s: string) {
    forall i :: 0 <= i < |s| ==> IsDigit(s[i])
  }

  function DigitChar(d: nat): (c: char)
    requires d < 10
    ensures IsDigit(c) && (c as int) - ('0' as int) == d
  {
    "0123456789"[d]
  }

  /** The decimal rendering of `n`, as a template literal prints a number. */
  function Decimal(n: nat): (s: string)
    ensures s != [] && AllDigits(s)
    ensures n < 10 <==> |s| == 1
  {
    if n < 10 then [DigitChar(n)] else Decimal(n / 10) + [DigitChar(n % 10)]
  }

  /** Reads a string of decimal digits back as a number. */
  function DecimalValue(s: string): nat
    requires AllDigits(s)
  {
    if s == [] then 0
    else DecimalValue(s[..|s| - 1]) * 10 + ((s[|s| - 1] as int) - ('0' as int))
  }

  /** Reading back a rendered number gives the number: the rendering loses nothing. */
  lemma {:induction false} DecimalRoundTrip(n: nat)
    ensures DecimalValue(Decimal(n)) == n
  {
    if n >= 10 {
      var s := Decimal(n);
      assert s[..|s| - 1] == Decimal(n / 10);
      DecimalRoundTrip(n / 10);
    }
  }

  /** Two numbers with the same rendering are equal. */
  lemma DecimalInjective(a: nat, b: nat)
    requires Decimal(a) == Decimal(b)
    ensures a == b
  {
    DecimalRoundTrip(a);
    DecimalRoundTrip(b);
  }

  /** A four-digit number renders as four characters. */
  lemma FourDigits(n: nat)
    requires 1000 <= n <= 9999
    ensures |Decimal(n)| == 4
  {
    assert |Decimal(n / 1000)| == 1;
    assert |Decimal(n / 100)| == 2;
    assert |Decimal(n / 10)| == 3;
  }

  /**
   * A tournament short code, `NX` followed by the number drawn from
   * [1000, 9999] (a random draw, index.js:339).
   */
  predicate IsShortCode(code: string) {
    |code| == 6 && code[..2] == "NX" && AllDigits(code[2..])
  }

  function ShortCode(draw: int): (code: string)
    requires 1000 <= draw <= 9999
    ensures IsShortCode(code)
    ensures code[2..] == Decimal(draw)
  {
    FourDigits(draw);
    var code := "NX" + Decimal(draw);
    assert code[2..] == Decimal(draw);
    code
  }

  /** Distinct draws give distinct short codes. */
  lemma ShortCodeInjective(a: int, b: int)
    requires 1000 <= a <= 9999 && 1000 <= b <= 9999
    requires ShortCode(a) == ShortCode(b)
    ensures a == b
  {
    DecimalInjective(a, b);
  }

  /** The part of a match id that names its tournament and round: `${shortCode}-R${round}-M`. */
  function RoundPrefix(code: string, round: nat): string {
    code + "-R" + Decimal(round) + "-M"
  }

  /** The id of the `index`-th match of a round: `${shortCode}-R${round}-M${index}` (index.js:1147). */
  function MatchId(code: string, round: nat, index: nat): (id: string)
    ensures RoundPrefix(code, round) <= id
  {
    RoundPrefix(code, round) + Decimal(index)
  }

  /** The position of the first dash in `s` (its length when there is none). */
  function FirstDash(s: string): (k: nat)
    ensures k <= |s|
  {
    if s == [] || s[0] == '-' then 0 else 1 + FirstDash(s[1..])
  }

  /** A run of digits followed by a dash ends exactly at the first dash. */
  lemma {:induction false} DigitsEndAtFirstDash(d: string, s: string)
    requires AllDigits(d)
    requires d + "-" <= s
    ensures FirstDash(s) == |d|
  {
    if d != [] {
      assert d[1..] + "-" <= s[1..] by {
        assert (d + "-")[1..] == d[1..] + "-";
      }
      DigitsEndAtFirstDash(d[1..], s[1..]);
    }
  }

  /**
   * If a run of digits followed by a dash starts a string, the digits are
   * determined by the string: the first dash ends them.
   */
  lemma DigitsBeforeDash(d1: string, d2: string, s: string)
    requires AllDigits(d1) && AllDigits(d2)
    requires d1 + "-" <= s && d2 + "-" <= s
    ensures d1 == d2
  {
    DigitsEndAtFirstDash(d1, s);
    DigitsEndAtFirstDash(d2, s);
    assert d1 == s[..|d1|] == d2;
  }

  /**
   * Two round prefixes of the same id, from codes of equal length, agree on
   * the code and on the round: a match id tells its tournament and its round.
   */
  lemma RoundPrefixUnique(c1: string, r1: nat, c2: string, r2: nat, id: string)
    requires |c1| == |c2|
    requires RoundPrefix(c1, r1) <= id && RoundPrefix(c2, r2) <= id
    ensures c1 == c2 && r1 == r2
  {
    assert c1 == id[..|c1|] == c2;
    var rest := id[|c1| + 2..];
    assert Decimal(r1) + "-" <= rest by {
      assert (RoundPrefix(c1, r1))[|c1| + 2..] == Decimal(r1) + "-M";
    }
    assert Decimal(r2) + "-" <= rest by {
      assert (RoundPrefix(c2, r2))[|c2| + 2..] == Decimal(r2) + "-M";
    }
    DigitsBeforeDash(Decimal(r1), Decimal(r2), rest);
    DecimalInjective(r1, r2);
  }

  /** Match ids of different tournaments, rounds or positions differ. */
  lemma MatchIdInjective(c1: string, r1: nat, k1: nat, c2: string, r2: nat, k2: nat)
    requires |c1| == |c2|
    requires MatchId(c1, r1, k1) == MatchId(c2, r2, k2)
    ensures c1 == c2 && r1 == r2 && k1 == k2
  {
    var id := MatchId(c1, r1, k1);
    RoundPrefixUnique(c1, r1, c2, r2, id);
    var p := RoundPrefix(c1, r1);
    assert Decimal(k1) == id[|p|..] == Decimal(k2);
    DecimalInjective(k1, k2);
  }
}
