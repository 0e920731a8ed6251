/**
  The price formatting block of `fetchPrice`: a raw decimal string from the
  ticker endpoint is cut after the second character that follows its first
  '.', without rounding.

  A Go string is a byte sequence; here each element of a `string` stands for
  one byte. Because '.' is ASCII, the index at which Go's `range` loop sees the
  first '.' rune is the index of the first '.' byte.
*/
module PriceFormat {

  /** Index of the first '.' in `s`, or -1 when there is none (Go's `dotIndex`). */
  function DotIndex(s: string): (r: int)
    ensures -1 <= r < |s|
    ensures r == -1 <==> '.' !in s
    ensures 0 <= r ==> s[r] == '.' && forall j :: 0 <= j < r ==> s[j] != '.'
    decreases |s|
  {
    if |s| == 0 then -1
    else if s[0] == '.' then 0
    else
      var k := DotIndex(s[1..]);
      if k == -1 then -1 else k + 1
  }

  /** True when `d` is the position of the first '.' in `s`. */
  predicate IsFirstDot(s: string, d: int) {
    0 <= d < |s| && s[d] == '.' && forall j :: 0 <= j < d ==> s[j] != '.'
  }

  /** Number of characters after the first '.' of `s`; 0 when there is no '.'. */
  function FractionLength(s: string): nat {
    if '.' in s then |s| - DotIndex(s) - 1 else 0
  }

  /**
    The price after formatting: unchanged when it has at most three characters,
    no '.', or at most two characters after its first '.'; otherwise the part
    up to and including the first '.' followed by the next two characters.
    The result is always a prefix of the input.
  */
  function FormatPrice(price: string): (r: string)
    ensures r <= price
  {
    if |price| > 3 then
      var dotIndex := DotIndex(price);
      if dotIndex != -1 && dotIndex + 3 < |price| then price[..dotIndex + 3] else price
    else price
  }

  /** The formatting block as Go runs it: a scanning loop for the first '.', then a slice. */
  method TruncatePrice(price: string) returns (r: string)
    ensures r == FormatPrice(price)
  {
    r := price;
    if |price| > 3 {
      var dotIndex := -1;
      var i := 0;
      while i < |price|
        invariant 0 <= i <= |price|
        invariant dotIndex == -1 || (dotIndex == i && IsFirstDot(price, i))
        invariant forall j :: 0 <= j < i ==> price[j] != '.'
        decreases |price| - i
      {
        if price[i] == '.' {
          dotIndex := i;
          break;
        }
        i := i + 1;
      }
      FirstDotIsDotIndex(price, dotIndex);
      if dotIndex != -1 && dotIndex + 3 < |price| {
        r := price[..dotIndex + 3];
      }
    }
  }

  /** The result of the scan is what DotIndex computes. */
  lemma FirstDotIsDotIndex(s: string, d: int)
    requires d == -1 ==> '.' !in s
    requires d != -1 ==> IsFirstDot(s, d)
    ensures DotIndex(s) == d
  {
  }

  /** Reference definition: the same cut without the `len(price) > 3` guard. */
  function FormatPriceUnguarded(price: string): string {
    var dotIndex := DotIndex(price);
    if dotIndex != -1 && dotIndex + 3 < |price| then price[..dotIndex + 3] else price
  }

  /** The `len(price) > 3` guard never changes the outcome. */
  lemma GuardIsRedundant(price: string)
    ensures FormatPrice(price) == FormatPriceUnguarded(price)
  {
  }

  /** With its first '.' at `d` and more than two characters after it, a price is cut to `d + 3` characters. */
  lemma TruncatesToTwoFractionChars(price: string, d: int)
    requires IsFirstDot(price, d) && d + 3 < |price|
    ensures FormatPrice(price) == price[..d + 3]
    ensures |FormatPrice(price)| == d + 3 && FormatPrice(price)[d] == '.'
  {
    FirstDotIsDotIndex(price, d);
  }

  /**
    A price comes back unchanged exactly when it has no '.' or at most two
    characters after its first '.'; in particular "" maps to "".
  */
  lemma UnchangedIff(price: string)
    ensures FormatPrice(price) == price <==> ('.' !in price || FractionLength(price) <= 2)
    ensures FormatPrice("") == ""
  {
    if '.' in price && FractionLength(price) > 2 {
      assert |FormatPrice(price)| < |price|;
    }
  }

  /** The integer part and the '.' are never touched: only the fraction is shortened. */
  lemma KeepsIntegerPart(price: string)
    ensures '.' in price ==>
              |FormatPrice(price)| > DotIndex(price) &&
              FormatPrice(price)[..DotIndex(price) + 1] == price[..DotIndex(price) + 1]
    ensures '.' !in price ==> FormatPrice(price) == price
  {
  }

  /** A prefix that still contains the first '.' has its first '.' in the same place. */
  lemma DotIndexOfPrefix(s: string, n: nat)
    requires '.' in s && DotIndex(s) < n <= |s|
    ensures DotIndex(s[..n]) == DotIndex(s)
  {
    FirstDotIsDotIndex(s[..n], DotIndex(s));
  }

  /** A formatted price has at most two characters after its first '.'. */
  lemma AtMostTwoFractionChars(price: string)
    ensures FractionLength(FormatPrice(price)) <= 2
  {
    var r := FormatPrice(price);
    if '.' in r {
      var d := DotIndex(price);
      assert d != -1 by {
        var k :| 0 <= k < |r| && r[k] == '.';
        assert price[k] == '.';
      }
      DotIndexOfPrefix(price, |r|);
    }
  }

  /** Formatting twice is formatting once. */
  lemma Idempotent(price: string)
    ensures FormatPrice(FormatPrice(price)) == FormatPrice(price)
  {
    AtMostTwoFractionChars(price);
    UnchangedIff(FormatPrice(price));
  }

  /** The cut keeps two fraction characters and never rounds: "12345.6789" becomes "12345.67". */
  lemma TruncationExample()
    ensures FormatPrice("12345.6789") == "12345.67"
  {
    var a := "12345.6789";
    TruncatesToTwoFractionChars(a, 5);
    assert a[..8] == "12345.67";
  }

  /** No rounding up either: "99.999" becomes "99.99", not "100.00". */
  lemma NoRoundingExample()
    ensures FormatPrice("99.999") == "99.99"
  {
    var b := "99.999";
    TruncatesToTwoFractionChars(b, 2);
    assert b[..5] == "99.99";
  }

  /** Inputs of at most three characters are kept, and "" stays "" (no "N/A" here). */
  lemma ShortExamples()
    ensures FormatPrice("5") == "5"
    ensures FormatPrice("1.1") == "1.1"
    ensures FormatPrice("") == ""
  {
  }

  /** Exactly two fraction characters: kept as it is. */
  lemma TwoFractionCharsExample()
    ensures FormatPrice("2500.50") == "2500.50"
  {
    FirstDotIsDotIndex("2500.50", 4);
  }

  /** A ticker price with three fraction digits: "60000.123" becomes "60000.12". */
  lemma TickerExample()
    ensures FormatPrice("60000.123") == "60000.12"
  {
    var a := "60000.123";
    TruncatesToTwoFractionChars(a, 5);
    assert a[..8] == "60000.12";
  }
}
