/** The declared field types of the models: what a value must satisfy to be stored in a
    field of that kind. Dates are day ordinals and decimals with two decimal places are
    integers counting cents. */
module Fields {

  /** Largest value of a `PositiveIntegerField` in the range Django documents as safe on every
      backend; its smallest is 0. */
  const MaxPositiveInteger: int := 2147483647

  predicate IsPositiveInteger(n: int) {
    0 <= n <= MaxPositiveInteger
  }

  /** Text a serializer `CharField` accepts at all: it holds no NUL character. (Dafny characters
      are Unicode scalar values, so the companion rule against surrogates always holds.) */
  predicate IsText(s: string) {
    forall i :: 0 <= i < |s| ==> s[i] != '\0'
  }

  /** A `CharField(max_length = m)` without `blank=True`: not empty, at most `m` characters. */
  predicate IsCharField(s: string, maxLength: nat) {
    0 < |s| <= maxLength && IsText(s)
  }

  function Pow10(n: nat): int {
    if n == 0 then 1 else 10 * Pow10(n - 1)
  }

  /** A `DecimalField(max_digits = d, decimal_places = 2)` holding an amount in cents: the amount
      has at most `d` digits in all, so at most `d - 2` before the decimal point. */
  predicate IsDecimal(cents: int, maxDigits: nat) {
    -Pow10(maxDigits) < cents < Pow10(maxDigits)
  }

  /** The stored codes of the platform choices, in the order the choice list declares them:
      AirBnb, Booking.com, Skyscanner. The second half of each choice is a display label only. */
  const PlatformCodes: seq<string> := ["Ab", "Bk", "Ss"]

  predicate IsPlatform(s: string) {
    s in PlatformCodes
  }

  /** Position of a platform code in the choice list; codes outside it come last. */
  function PlatformRank(s: string): (n: nat)
    ensures n <= |PlatformCodes|
    ensures n < |PlatformCodes| <==> IsPlatform(s)
    ensures n < |PlatformCodes| ==> PlatformCodes[n] == s
  {
    if s == "Ab" then 0 else if s == "Bk" then 1 else if s == "Ss" then 2 else 3
  }

  /** Lexicographic order of strings by code point: the order a database sorts a text column in
      under a binary collation. */
  predicate StrLe(a: string, b: string)
    decreases |a|
  {
    |a| == 0 || (|b| > 0 && (a[0] < b[0] || (a[0] == b[0] && StrLe(a[1..], b[1..]))))
  }

  /** The choice list is declared in ascending string order, so ordering by rank is ordering by
      the stored platform text. */
  lemma RankOrderIsTextOrder(a: string, b: string)
    requires IsPlatform(a) && IsPlatform(b)
    ensures PlatformRank(a) <= PlatformRank(b) <==> StrLe(a, b)
  {
    assert "Ab"[0] == 'A' && "Bk"[0] == 'B' && "Ss"[0] == 'S';
  }
}
