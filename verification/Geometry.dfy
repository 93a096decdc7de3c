/** Page and block arithmetic of a cache generation.

    A bitmap page is 32 KiB and a block (the unit of claiming, publication, eviction
    and pinning) is `b` pages, so every block boundary is a page boundary. Division by
    the configured block size is written as repeated subtraction: the proofs about
    blocks then need linear arithmetic only, and `QuotIsDiv`, `RoundDownIsDiv` and
    `TimesIsMul` tie the three functions to the operators that the source uses.
 */
module Geometry {

  const PAGE: nat := 32768

  function Min(a: nat, b: nat): nat { if a <= b then a else b }

  function Max(a: nat, b: nat): nat { if a >= b then a else b }

  /** Number of whole pieces of size `b` in `o`. */
  function Quot(o: nat, b: nat): nat
    requires b > 0
  {
    if o < b then 0 else 1 + Quot(o - b, b)
  }

  /** The largest multiple of `b` that is at most `o`. */
  function RoundDown(o: nat, b: nat): (r: nat)
    requires b > 0
    ensures r <= o < r + b
  {
    if o < b then 0 else b + RoundDown(o - b, b)
  }

  predicate Multiple(o: nat, b: nat)
    requires b > 0
  {
    RoundDown(o, b) == o
  }

  /** The size of `k` pieces. */
  function Times(k: nat, b: nat): nat
  {
    if k == 0 then 0 else b + Times(k - 1, b)
  }

  /** Number of pieces of size `b` needed to cover `o`. */
  function Pieces(o: nat, b: nat): nat
    requires b > 0
  {
    Quot(o + b - 1, b)
  }

  lemma {:induction false} TimesIsMul(k: nat, b: nat)
    ensures Times(k, b) == k * b
  {
    if k > 0 {
      TimesIsMul(k - 1, b);
      assert k * b == (k - 1) * b + b;
    }
  }

  lemma {:induction false} RoundDownIsTimes(o: nat, b: nat)
    requires b > 0
    ensures RoundDown(o, b) == Times(Quot(o, b), b)
  {
    if o >= b { RoundDownIsTimes(o - b, b); }
  }

  lemma MulMonotone(k: int, l: int, b: nat)
    ensures k <= l ==> k * b <= l * b
  {
  }

  lemma DivUnique(o: nat, b: nat, k: nat)
    requires b > 0 && k * b <= o < k * b + b
    ensures o / b == k
  {
    MulMonotone(o / b + 1, k, b);
    MulMonotone(k + 1, o / b, b);
  }

  lemma QuotIsDiv(o: nat, b: nat)
    requires b > 0
    ensures Quot(o, b) == o / b
  {
    RoundDownIsTimes(o, b);
    TimesIsMul(Quot(o, b), b);
    DivUnique(o, b, Quot(o, b));
  }

  lemma RoundDownIsDiv(o: nat, b: nat)
    requires b > 0
    ensures RoundDown(o, b) == o / b * b
    ensures Multiple(o, b) <==> o % b == 0
  {
    RoundDownIsTimes(o, b);
    QuotIsDiv(o, b);
    TimesIsMul(o / b, b);
    assert o == o / b * b + o % b;
  }

  /** A page lies below the first page of block `k` exactly when its block is below `k`. */
  lemma {:induction false} QuotBelow(p: nat, b: nat, k: nat)
    requires b > 0
    ensures Quot(p, b) < k <==> p < Times(k, b)
  {
    if k > 0 && p >= b { QuotBelow(p - b, b, k - 1); }
  }

  lemma {:induction false} QuotMonotone(p: nat, q: nat, b: nat)
    requires b > 0 && p <= q
    ensures Quot(p, b) <= Quot(q, b)
  {
    if p >= b { QuotMonotone(p - b, q - b, b); }
  }

  lemma {:induction false} TimesMonotone(k: nat, l: nat, b: nat)
    requires k <= l
    ensures Times(k, b) <= Times(l, b)
    ensures k < l ==> Times(k, b) + b <= Times(l, b)
  {
    if k < l { TimesMonotone(k, l - 1, b); }
  }

  lemma {:induction false} MultipleTimes(k: nat, b: nat)
    requires b > 0
    ensures Multiple(Times(k, b), b) && Quot(Times(k, b), b) == k
  {
    if k > 0 { MultipleTimes(k - 1, b); }
  }

  lemma {:induction false} MultipleSum(x: nat, y: nat, b: nat)
    requires b > 0 && Multiple(x, b)
    ensures Multiple(x + y, b) <==> Multiple(y, b)
    ensures RoundDown(x + y, b) == x + RoundDown(y, b)
  {
    if x > 0 { MultipleSum(x - b, y, b); }
  }

  /** Blocks measured in bytes and blocks measured in pages agree. */
  lemma {:induction false} TimesScale(k: nat, b: nat)
    ensures Times(k, b * PAGE) == Times(k, b) * PAGE
  {
    if k > 0 { TimesScale(k - 1, b); }
  }

  lemma {:induction false} QuotScale(o: nat, b: nat)
    requires b > 0
    ensures Quot(o, b * PAGE) == Quot(o / PAGE, b)
  {
    if o >= b * PAGE {
      assert (o - b * PAGE) / PAGE == o / PAGE - b;
      QuotScale(o - b * PAGE, b);
    }
  }

  /** A multiple of the block size is a page boundary, and a multiple of the block's pages. */
  lemma MultipleScale(o: nat, b: nat)
    requires b > 0 && Multiple(o, b * PAGE)
    ensures o % PAGE == 0 && o == Times(Quot(o, b * PAGE), b) * PAGE
  {
    RoundDownIsTimes(o, b * PAGE);
    TimesScale(Quot(o, b * PAGE), b);
  }

  /** `Pieces` covers the whole and no piece is empty. */
  lemma PiecesBounds(o: nat, b: nat)
    requires b > 0
    ensures o <= Times(Pieces(o, b), b) < o + b
  {
    RoundDownIsTimes(o + b - 1, b);
  }
}
