/** DNS serial numbers: 32 bits wide, compared as section 3.2 of RFC 1982 defines. */
module Serials {

  const TWO31: int := 0x8000_0000
  const TWO32: int := 0x1_0000_0000

  type Serial = s: int | 0 <= s < TWO32 witness 0

  /** `a` comes before `b`.  Serials exactly 2^31 apart are not ordered at all. */
  predicate Before(a: Serial, b: Serial) {
    (a < b && b - a < TWO31) || (b < a && a - b > TWO31)
  }

  /** The serial reached from `base` by counting `n` versions on, around 2^32. */
  function Wrap(n: int): Serial {
    n % TWO32
  }

  /** Two counts less than 2^31 apart are ordered like the serials they wrap to. */
  lemma BeforeInWindow(m: int, n: int)
    requires -TWO31 < n - m < TWO31
    ensures Before(Wrap(m), Wrap(n)) <==> m < n
    ensures Wrap(m) == Wrap(n) <==> m == n
  {
    var p, q := m / TWO32, n / TWO32;
    assert m == p * TWO32 + Wrap(m) && n == q * TWO32 + Wrap(n);
    assert (q - p) * TWO32 == n - m - (Wrap(n) - Wrap(m));
    assert -1 <= q - p <= 1;
  }

  /** Counts exactly 2^31 apart wrap to serials that neither order relates. */
  lemma HalfwayIsUnordered(m: int)
    ensures !Before(Wrap(m), Wrap(m + TWO31)) && !Before(Wrap(m + TWO31), Wrap(m))
    ensures Wrap(m) != Wrap(m + TWO31)
  {
    var p, q := m / TWO32, (m + TWO31) / TWO32;
    assert m == p * TWO32 + Wrap(m) && m + TWO31 == q * TWO32 + Wrap(m + TWO31);
    assert (q - p) * TWO32 == TWO31 - (Wrap(m + TWO31) - Wrap(m));
    assert 0 <= q - p <= 1;
  }
}
