/** Facts about 64-bit words: two-bit fields at even shifts, and masks of ones.

    The operations are named functions so that callers can reason about them without
    looking at single bits.
 */
module WordBits {
  const ONES: bv64 := 0xFFFF_FFFF_FFFF_FFFF
  const EVERY_FIELD: bv64 := 0x5555_5555_5555_5555

  predicate Even(s: bv8) { s <= 62 && s & 1 == 0 }

  function Shl(x: bv64, s: bv8): bv64
    requires s <= 62
  {
    x << s
  }

  function Shr(x: bv64, s: bv8): bv64
    requires s <= 62
  {
    x >> s
  }

  function And(x: bv64, y: bv64): bv64 { x & y }

  function Or(x: bv64, y: bv64): bv64 { x | y }

  /** The field that starts at bit `s`. */
  function Take(w: bv64, s: bv8): (c: bv64)
    requires s <= 62
    ensures c <= 3
  {
    (w >> s) & 3
  }

  /** `w` with the field at bit `s` replaced. */
  function Put(w: bv64, s: bv8, c: bv64): bv64
    requires s <= 62
  {
    (w & !(3 << s)) | (c << s)
  }

  function Pattern(c: bv64): bv64 { c * EVERY_FIELD }

  lemma PutTake(w: bv64, s: bv8, c: bv64)
    requires s <= 62 && c <= 3
    ensures Take(Put(w, s, c), s) == c
  {
  }

  lemma PutElsewhere(w: bv64, s: bv8, t: bv8, c: bv64)
    requires Even(s) && Even(t) && s != t && c <= 3
    ensures Take(Put(w, s, c), t) == Take(w, t)
  {
  }

  lemma TakeZero(s: bv8)
    requires s <= 62
    ensures Take(0, s) == 0
  {
  }

  lemma ShlStep(x: bv64, s: bv8)
    requires Even(s) && s <= 60
    ensures Shl(x, s + 2) == Shl(Shl(x, s), 2)
  {
  }

  lemma ShlZero(x: bv64)
    ensures Shl(x, 0) == x
  {
  }

  lemma ShlOrTwo(a: bv64, b: bv64)
    ensures Shl(Or(a, b), 2) == Or(Shl(a, 2), Shl(b, 2))
  {
  }

  lemma OnesStep(t: bv8)
    requires Even(t) && t <= 60
    ensures Shr(ONES, t) == Or(Shr(ONES, t + 2), Shl(3, 62 - t))
  {
  }

  lemma OnesLast()
    ensures Shr(ONES, 62) == 3
  {
  }

  lemma PartDown(w: bv64, s: bv8)
    requires Even(s)
    ensures Shr(And(w, Shl(3, s)), s) == Take(w, s)
  {
  }

  lemma PartUp(w: bv64, s: bv8)
    requires Even(s)
    ensures Shl(Take(w, s), s) == And(w, Shl(3, s))
  {
  }

  lemma PatternTake(c: bv64, s: bv8)
    requires Even(s) && c <= 3
    ensures Take(Pattern(c), s) == c
  {
  }

  lemma AndOr(w: bv64, m: bv64, f: bv64)
    ensures And(w, Or(m, f)) == Or(And(w, m), And(w, f))
  {
    hide And, Or;
    OrIs(m, f);
    AndIs(w, m | f);
    AndIs(w, m);
    AndIs(w, f);
    OrIs(w & m, w & f);
    RawAndOr(w, m, f);
  }

  lemma AndOrLeft(w: bv64, m: bv64, f: bv64)
    ensures And(And(w, Or(m, f)), m) == And(w, m)
  {
    hide And, Or;
    OrIs(m, f);
    AndIs(w, m | f);
    AndIs(w & (m | f), m);
    AndIs(w, m);
    RawAndOrLeft(w, m, f);
  }

  lemma AndIs(x: bv64, y: bv64)
    ensures And(x, y) == x & y
  {
  }

  lemma OrIs(x: bv64, y: bv64)
    ensures Or(x, y) == x | y
  {
  }

  lemma RawAndOr(w: bv64, m: bv64, f: bv64)
    ensures w & (m | f) == (w & m) | (w & f)
  {
  }

  lemma RawAndOrLeft(w: bv64, m: bv64, f: bv64)
    ensures (w & (m | f)) & m == w & m
  {
  }

  lemma OrCommutes(m: bv64, f: bv64)
    ensures Or(m, f) == Or(f, m)
  {
  }
}
