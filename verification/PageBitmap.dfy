/** Page states packed two bits to a page into 64-bit words, as the metadata file holds them.

    `Bitmap` is the in-place array with the source's shifts and masks. `States` is what it
    stands for: one `PageState` per page.
 */
module PageBitmap {
  import opened Geometry
  import opened EntryModel
  import opened WordBits

  const FIELDS: nat := 32
  function Code(st: PageState): (c: bv64)
    ensures c <= 3
  {
    match st
    case Missing => 0
    case ReadPending => 1
    case Clean => 2
    case Bad => 3
  }

  function Decode(c: bv64): PageState
  {
    if c == 0 then Missing else if c == 1 then ReadPending else if c == 2 then Clean else Bad
  }

  lemma CodeRoundTrip(st: PageState, c: bv64)
    requires c <= 3
    ensures Decode(c) == st <==> c == Code(st)
  {
  }

  // ---------------------------------------------------------------- shifts

  /** Twice `k` as a machine number: the bit where field `k` starts. */
  function Shift(k: nat): bv8
  {
    if k == 0 then 0 else Shift(k - 1) + 2
  }

  lemma AddTwo(x: bv8)
    requires x <= 62
    ensures (x + 2) as int == x as int + 2
    ensures x & 1 == 0 ==> (x + 2) & 1 == 0
  {
  }

  lemma {:induction false} ShiftValue(k: nat)
    requires k <= FIELDS
    ensures Shift(k) as int == 2 * k && Shift(k) & 1 == 0
  {
    if k > 0 {
      ShiftValue(k - 1);
      AddTwo(Shift(k - 1));
    }
  }

  lemma IntOrder(x: bv8, y: bv8)
    ensures x <= y <==> x as int <= y as int
    ensures x == y <==> x as int == y as int
  {
  }

  lemma ShiftOrder(j: nat, k: nat)
    requires j < k <= FIELDS
    ensures Shift(j) & 1 == 0 && Shift(k) & 1 == 0 && Shift(j) <= 62 && Shift(k) <= 64 && Shift(j) + 2 <= Shift(k)
  {
    ShiftValue(j);
    ShiftValue(k);
    IntOrder(Shift(j), 62);
    IntOrder(Shift(k), 64);
    AddTwo(Shift(j));
    IntOrder(Shift(j) + 2, Shift(k));
  }

  lemma ShiftFits(k: nat)
    requires k < FIELDS
    ensures Even(Shift(k))
  {
    ShiftOrder(k, FIELDS);
  }

  lemma ShiftDistinct(j: nat, k: nat)
    requires j < FIELDS && k < FIELDS
    ensures Shift(j) == Shift(k) <==> j == k
  {
    ShiftValue(j);
    ShiftValue(k);
  }

  lemma {:induction false} ShiftSum(j: nat, k: nat)
    ensures Shift(j) + Shift(k) == Shift(j + k)
    decreases k
  {
    if k > 0 { ShiftSum(j, k - 1); }
  }

  // ---------------------------------------------------------------- fields of a word

  function Field(w: bv64, k: nat): (c: bv64)
    requires k < FIELDS
    ensures c <= 3
  {
    ShiftFits(k);
    Take(w, Shift(k))
  }

  function SetField(w: bv64, k: nat, c: bv64): bv64
    requires k < FIELDS
  {
    ShiftFits(k);
    Put(w, Shift(k), c)
  }

  /** Storing into one field changes that field and no other. */
  lemma SetFieldExact(w: bv64, k: nat, c: bv64, j: nat)
    requires k < FIELDS && j < FIELDS && c <= 3
    ensures Field(SetField(w, k, c), j) == if j == k then c else Field(w, j)
  {
    ShiftFits(k);
    ShiftFits(j);
    ShiftDistinct(j, k);
    hide Shift, Take, Put;
    if j == k { PutTake(w, Shift(k), c); } else { PutElsewhere(w, Shift(k), Shift(j), c); }
  }

  lemma ZeroField(k: nat)
    requires k < FIELDS
    ensures Field(0, k) == 0
  {
    ShiftFits(k);
    hide Shift, Take;
    TakeZero(Shift(k));
  }

  // ---------------------------------------------------------------- masks

  function Up(x: bv64, k: nat): bv64
    requires k < FIELDS
  {
    ShiftFits(k);
    Shl(x, Shift(k))
  }

  /** The highest `count` bit pairs shifted down to the lowest. */
  function LowOnes(count: nat): bv64
    requires 0 < count <= FIELDS
  {
    ShiftFits(FIELDS - count);
    Shr(ONES, Shift(FIELDS - count))
  }

  /** The source's mask of `count` fields from field `lo` on. */
  function Mask(lo: nat, count: nat): bv64
    requires 0 < count && lo + count <= FIELDS
  {
    Up(LowOnes(count), lo)
  }

  lemma UpNext(x: bv64, k: nat)
    requires k + 1 < FIELDS
    ensures Up(x, k + 1) == Shl(Up(x, k), 2)
  {
    ShiftFits(k);
    ShiftFits(k + 1);
    ShiftOrder(k, FIELDS - 1);
    ShiftValue(FIELDS - 1);
    IntOrder(Shift(FIELDS - 1), 62);
    assert Shift(k + 1) == Shift(k) + 2;
    hide Shl, Shift;
    ShlStep(x, Shift(k));
  }

  lemma {:induction false} UpOr(a: bv64, b: bv64, k: nat)
    requires k < FIELDS
    ensures Up(Or(a, b), k) == Or(Up(a, k), Up(b, k))
    decreases k
  {
    hide Shl, Or;
    if k == 0 {
      ShlZero(a);
      ShlZero(b);
      ShlZero(Or(a, b));
    } else {
      hide Up;
      UpOr(a, b, k - 1);
      UpNext(Or(a, b), k - 1);
      UpNext(a, k - 1);
      UpNext(b, k - 1);
      ShlOrTwo(Up(a, k - 1), Up(b, k - 1));
    }
  }

  lemma {:induction false} UpUp(x: bv64, j: nat, k: nat)
    requires j + k < FIELDS
    ensures Up(Up(x, j), k) == Up(x, j + k)
    decreases k
  {
    hide Shl;
    if k == 0 {
      ShlZero(Up(x, j));
    } else {
      hide Up;
      UpUp(x, j, k - 1);
      UpNext(Up(x, j), k - 1);
      UpNext(x, j + k - 1);
    }
  }

  lemma LowOnesNext(count: nat)
    requires 1 < count <= FIELDS
    ensures LowOnes(count) == Or(LowOnes(count - 1), Up(3, count - 1))
  {
    var j := FIELDS - count;
    ShiftFits(j);
    ShiftFits(j + 1);
    ShiftFits(count - 1);
    ShiftOrder(j, FIELDS - 1);
    ShiftSum(j, count - 1);
    ShiftValue(FIELDS - 1);
    IntOrder(Shift(FIELDS - 1), 62);
    assert Shift(j + 1) == Shift(j) + 2 && Shift(count - 1) == 62 - Shift(j);
    hide Shl, Shr, Or, Shift;
    OnesStep(Shift(j));
  }

  lemma MaskNext(lo: nat, count: nat)
    requires 1 < count && lo + count <= FIELDS
    ensures Mask(lo, count) == Or(Mask(lo, count - 1), Up(3, lo + count - 1))
  {
    hide Up, LowOnes, Or;
    LowOnesNext(count);
    UpOr(LowOnes(count - 1), Up(3, count - 1), lo);
    UpUp(3, count - 1, lo);
  }

  lemma MaskOne(lo: nat)
    requires lo < FIELDS
    ensures Mask(lo, 1) == Up(3, lo)
  {
    ShiftFits(FIELDS - 1);
    ShiftValue(FIELDS - 1);
    IntOrder(Shift(FIELDS - 1), 62);
    hide Shr, Up, Shift;
    OnesLast();
  }

  // ---------------------------------------------------------------- the masked comparison

  lemma PartsEqual(w: bv64, v: bv64, k: nat)
    requires k < FIELDS
    ensures And(w, Up(3, k)) == And(v, Up(3, k)) <==> Field(w, k) == Field(v, k)
  {
    ShiftFits(k);
    hide And, Take, Shl, Shr, Shift;
    PartDown(w, Shift(k));
    PartDown(v, Shift(k));
    PartUp(w, Shift(k));
    PartUp(v, Shift(k));
  }

  lemma PatternField(c: bv64, k: nat)
    requires c <= 3 && k < FIELDS
    ensures Field(Pattern(c), k) == c
  {
    ShiftFits(k);
    hide Take, Shift, Pattern;
    PatternTake(c, Shift(k));
  }

  lemma MaskSplit(w: bv64, v: bv64, m: bv64, f: bv64)
    ensures And(w, Or(m, f)) == And(v, Or(m, f)) <==> And(w, m) == And(v, m) && And(w, f) == And(v, f)
  {
    hide And, Or;
    AndOr(w, m, f);
    AndOr(v, m, f);
    AndOrLeft(w, m, f);
    AndOrLeft(v, m, f);
    AndOrLeft(w, f, m);
    AndOrLeft(v, f, m);
    OrCommutes(m, f);
  }

  /** One masked word comparison tests all the fields under the mask, whatever their alignment. */
  lemma {:induction false} MaskedTest(w: bv64, c: bv64, lo: nat, count: nat)
    requires c <= 3 && 0 < count && lo + count <= FIELDS
    ensures And(w, Mask(lo, count)) == And(Pattern(c), Mask(lo, count)) <==>
            forall k | lo <= k < lo + count :: Field(w, k) == c
    decreases count
  {
    hide Mask, Up, Field, And, Or, Pattern;
    var last := lo + count - 1;
    PartsEqual(w, Pattern(c), last);
    PatternField(c, last);
    if count == 1 {
      MaskOne(lo);
    } else {
      MaskNext(lo, count);
      MaskSplit(w, Pattern(c), Mask(lo, count - 1), Up(3, last));
      MaskedTest(w, c, lo, count - 1);
    }
  }

  // ---------------------------------------------------------------- the bitmap

  /** State of page `p`. */
  function PageOf(words: seq<bv64>, p: nat): PageState
    requires p / FIELDS < |words|
  {
    Decode(Field(words[p / FIELDS], p % FIELDS))
  }

  class Bitmap {
    const words: array<bv64>
    const pages: nat

    ghost predicate Valid()
    {
      pages <= words.Length * FIELDS
    }

    ghost function States(): (s: seq<PageState>)
      requires Valid()
      reads words
      ensures |s| == pages
    {
      var all := words[..];
      seq(pages, p requires 0 <= p < pages => PageOf(all, p))
    }

    constructor (n: nat)
      ensures Valid() && fresh(words) && pages == n
      ensures forall p | 0 <= p < n :: States()[p] == Missing
    {
      var count := (n + FIELDS - 1) / FIELDS;
      words := new bv64[count](_ => 0);
      pages := n;
      new;
      forall p | 0 <= p < n ensures States()[p] == Missing { ZeroField(p % FIELDS); }
    }

    method Get(page: nat) returns (st: PageState)
      requires Valid() && page < pages
      ensures st == States()[page]
    {
      st := Decode(Field(words[page / FIELDS], page % FIELDS));
    }

    /** `set_page_state`: the two bits of this page and no others. */
    method Set(page: nat, st: PageState)
      requires Valid() && page < pages
      modifies words
      ensures States() == old(States())[page := st]
    {
      hide Field, SetField, Code, Decode;
      var word, k := page / FIELDS, page % FIELDS;
      ghost var before := words[..];
      ghost var was := States();
      words[word] := SetField(words[word], k, Code(st));
      forall p | 0 <= p < pages ensures States()[p] == was[page := st][p] {
        if p / FIELDS == word {
          SetFieldExact(before[word], k, Code(st), p % FIELDS);
          CodeRoundTrip(st, Code(st));
          assert p == page <==> p % FIELDS == k;
        }
      }
    }

    /** `range_all_state`: the masked loop agrees with looking at the pages one by one. */
    method RangeAll(offset: nat, length: nat, st: PageState) returns (all: bool)
      requires Valid() && (length > 0 ==> EndPage(offset, length) <= pages)
      ensures all <==> (length == 0 || AllState(States(), FirstPage(offset), EndPage(offset, length), st))
    {
      hide Field, Mask, And, Pattern, Code, Decode;
      if length == 0 { return true; }
      var first, last := offset / PAGE, (offset + length - 1) / PAGE + 1;
      assert last == EndPage(offset, length);
      var pattern := Pattern(Code(st));
      var page := first;
      while page < last
        invariant first <= page <= last
        invariant AllState(States(), first, page, st)
      {
        var word, k := page / FIELDS, page % FIELDS;
        var count := Min(FIELDS - k, last - page);
        var same := And(words[word], Mask(k, count)) == And(pattern, Mask(k, count));
        WordTest(words[..], page, count, st);
        assert forall p | 0 <= p < pages :: p / FIELDS < words.Length && States()[p] == PageOf(words[..], p);
        if !same {
          return false;
        }
        page := page + count;
      }
      return true;
    }
  }

  lemma WordTest(words: seq<bv64>, page: nat, count: nat, st: PageState)
    requires page / FIELDS < |words| && 0 < count && page % FIELDS + count <= FIELDS
    ensures var k, w := page % FIELDS, words[page / FIELDS];
            And(w, Mask(k, count)) == And(Pattern(Code(st)), Mask(k, count)) <==>
            forall p | page <= p < page + count :: p / FIELDS < |words| && PageOf(words, p) == st
  {
    hide Mask, Field, Code, Decode, And, Pattern;
    var k, w := page % FIELDS, words[page / FIELDS];
    MaskedTest(w, Code(st), k, count);
    forall p | page <= p < page + count
      ensures p / FIELDS == page / FIELDS && p % FIELDS == k + (p - page)
      ensures PageOf(words, p) == st <==> Field(w, p % FIELDS) == Code(st)
    {
      CodeRoundTrip(st, Field(w, k + (p - page)));
    }
    if forall p | page <= p < page + count :: PageOf(words, p) == st {
      forall j | k <= j < k + count ensures Field(w, j) == Code(st) { assert PageOf(words, page + (j - k)) == st; }
    }
  }
}
