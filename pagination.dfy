/** Page arithmetic shared by the paged lists: `Math.ceil(count / size)` and
    the two-digit page labels `String(page + 1).padStart(2, '0')`. */
module Pagination {
  import opened Text

  /** `Math.ceil(n / d)`: the fewest pages of `d` rows that hold `n` rows. */
  function CeilDiv(n: nat, d: nat): (r: nat)
    requires d > 0
    ensures r * d >= n
    ensures r > 0 ==> (r - 1) * d < n
    ensures r == 0 <==> n == 0
  {
    var q := (n + d - 1) / d;
    assert d * q + (n + d - 1) % d == n + d - 1;
    q
  }

  /** The page indexes `[...Array(n).keys()]`. */
  function PageIndexes(n: nat): (r: seq<nat>)
    ensures |r| == n
    ensures forall i :: 0 <= i < n ==> r[i] == i
  {
    seq(n, i => i)
  }

  /** The label of the button for 0-based page `page`. */
  function PageLabel(page: nat): (s: string)
    ensures 2 <= |s| && AllDigits(s)
    ensures page < 99 ==> |s| == 2
  {
    var d := Decimal(page + 1);
    PadStart(d, 2, '0')
  }

  /** A page label reads back as the 1-based page number it shows. */
  lemma PageLabelRoundTrip(page: nat)
    ensures DecimalValue(PageLabel(page)) == page + 1
  {
    var d := Decimal(page + 1);
    DecimalRoundTrip(page + 1);
    if |d| < 2 {
      LeadingZeros(2 - |d|, d);
    }
  }

  /** Different pages get different labels. */
  lemma PageLabelsDistinct(p: nat, q: nat)
    requires p != q
    ensures PageLabel(p) != PageLabel(q)
  {
    PageLabelRoundTrip(p);
    PageLabelRoundTrip(q);
  }
}
