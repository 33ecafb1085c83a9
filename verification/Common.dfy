/**
 Types, constants and small facts shared by the contracts of the name-leasing fleet.
 Amounts are yoctoNEAR, instants and durations are nanoseconds.
 */
module Common {

  type AccountId = string

  datatype Option<+T> = None | Some(value: T)

  const MAX_U64: nat := 0xFFFF_FFFF_FFFF_FFFF
  const MAX_U128: nat := 0xFFFF_FFFF_FFFF_FFFF_FFFF_FFFF_FFFF_FFFF

  const NS_PER_SEC: nat := 1_000_000_000
  const ONE_YEAR_NS: nat := 365 * 24 * 60 * 60 * NS_PER_SEC
  const MAX_AUTHORITY_HOLD_NS: nat := 7 * 24 * 60 * 60 * NS_PER_SEC
  const MIN_LEASE_RETRACT_NOTICE_NS: nat := 12 * 60 * 60 * NS_PER_SEC

  datatype OperatingState = Active | Listed | Settling | Suspended | Parked

  /** Why a wallet changes hands. Every consequence of a rotation is read off its cause. */
  datatype RotationCause = Sale | Transfer | Deposit | ReRent | Reclaim | Recovery | Revert {
    predicate Parks() {
      Reclaim?
    }

    predicate RepointsPayout() {
      !Deposit? && !ReRent?
    }

    predicate Sweeps() {
      !Recovery? && !Revert?
    }

    predicate NeedsHolder() {
      Sale? || Transfer? || Deposit?
    }

    predicate NeedsExpiry() {
      ReRent? || Reclaim?
    }
  }

  function Max(a: int, b: int): int {
    if a < b then b else a
  }

  function Min(a: int, b: int): int {
    if a < b then a else b
  }

  /** Rust's `saturating_sub` on unsigned integers. */
  function SatSub(a: nat, b: nat): nat {
    if a < b then 0 else a - b
  }

  /** The elements of a sequence as a set. */
  function Elements<T>(xs: seq<T>): set<T> {
    set x | x in xs
  }

  ghost predicate Distinct<T>(xs: seq<T>) {
    forall i, j :: 0 <= i < j < |xs| ==> xs[i] != xs[j]
  }

  lemma {:induction false} DistinctCardinality<T>(xs: seq<T>)
    requires Distinct(xs)
    ensures |Elements(xs)| == |xs|
  {
    if xs != [] {
      var init, last := xs[..|xs| - 1], xs[|xs| - 1];
      DistinctCardinality(init);
      assert Elements(xs) == Elements(init) + {last};
      assert last !in Elements(init);
    }
  }

  /** The integers of a half-open range. */
  function Range(lo: int, hi: int): (r: set<int>)
    requires lo <= hi
    ensures forall x :: x in r <==> lo <= x < hi
    ensures |r| == hi - lo
    decreases hi - lo
  {
    if lo == hi then {} else Range(lo, hi - 1) + {hi - 1}
  }

  lemma {:induction false} SubsetCardinality<T>(a: set<T>, b: set<T>)
    requires a <= b
    ensures |a| <= |b|
  {
    assert b == a + (b - a);
    assert |b| == |a| + |b - a|;
  }

  ghost function Pick<T>(s: set<T>): (x: T)
    requires s != {}
    ensures x in s
  {
    var x :| x in s; x
  }

  /** Moving every element of a set by the same distance keeps its size. */
  function Shift(s: set<int>, d: int): set<int> {
    set x | x in s :: x + d
  }

  lemma {:induction false} ShiftCardinality(s: set<int>, d: int)
    ensures |Shift(s, d)| == |s|
  {
    if s != {} {
      var y := Pick(s);
      ShiftCardinality(s - {y}, d);
      ShiftSplit(s, y, d);
    }
  }

  lemma ShiftSplit(s: set<int>, y: int, d: int)
    requires y in s
    ensures Shift(s, d) == Shift(s - {y}, d) + {y + d}
    ensures y + d !in Shift(s - {y}, d)
  {
    forall z | z in Shift(s, d)
      ensures z in Shift(s - {y}, d) + {y + d}
    {
      var x :| x in s && x + d == z;
      assert x == y || x in s - {y};
    }
  }

  lemma RangesJoin(lo: int, mid: int, hi: int)
    requires lo <= mid <= hi
    ensures Range(lo, hi) == Range(lo, mid) + Range(mid, hi)
  {
  }

  /** A set of integers within two stretches of `h` that holds no two integers `h` apart has at most `h`. */
  lemma HalfFull(s: set<int>, a: int, h: nat)
    requires s <= Range(a, a + 2 * h) && forall p :: p in s ==> p + h !in s
    ensures |s| <= h
  {
    var early, late := s * Range(a, a + h), s * Range(a + h, a + 2 * h);
    RangesJoin(a, a + h, a + 2 * h);
    assert s == early + late;
    ShiftedInto(early, late, a, h);
    ShiftCardinality(early, h);
    assert |Shift(early, h) + late| == |Shift(early, h)| + |late|;
    SubsetCardinality(Shift(early, h) + late, Range(a + h, a + 2 * h));
  }

  lemma ShiftedInto(early: set<int>, late: set<int>, a: int, h: nat)
    requires early <= Range(a, a + h) && late <= Range(a + h, a + 2 * h) && forall p :: p in early ==> p + h !in late
    ensures Shift(early, h) + late <= Range(a + h, a + 2 * h) && Shift(early, h) !! late
  {
    forall q | q in Shift(early, h)
      ensures q in Range(a + h, a + 2 * h) && q !in late
    {
      assert q - h in early;
    }
  }
}
