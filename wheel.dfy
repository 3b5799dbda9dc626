/**
 * The fixed European wheel layout (script.js line 18) and the index
 * arithmetic the tracker does on it: Array.prototype.indexOf, the position of a
 * pocket on the wheel, and the circular sections centred on a position.
 */
module Wheel {

  /** A pocket of a European wheel: the numbers 0..36 written on the tracker's buttons. */
  type Pocket = n: int | 0 <= n <= 36

  /** The 37 pockets in the order they sit round the wheel, starting at the zero. */
  const WheelNumbers: seq<Pocket> :=
    [0, 32, 15, 19, 4, 21, 2, 25, 17, 34, 6, 27, 13, 36, 11, 30, 8, 23, 10, 5, 24,
     16, 33, 1, 20, 14, 31, 9, 22, 18, 29, 7, 28, 12, 35, 3, 26]

  /** Array.prototype.indexOf: the first index that holds x, or -1 when there is none. */
  function IndexOf<T(==)>(s: seq<T>, x: T): (r: int)
    ensures -1 <= r < |s|
    ensures r == -1 <==> x !in s
    ensures 0 <= r ==> s[r] == x
    ensures forall j :: 0 <= j < r ==> s[j] != x
  {
    if |s| == 0 then -1
    else if s[0] == x then 0
    else
      var r := IndexOf(s[1..], x);
      if r < 0 then -1 else r + 1
  }

  /** A wheel layout: 37 places holding every pocket. */
  ghost predicate IsLayout(wheel: seq<Pocket>)
  {
    |wheel| == 37 && forall n: Pocket :: n in wheel
  }

  /** The European order is such a layout: every pocket is on the wheel. */
  lemma WheelNumbersIsLayout()
    ensures IsLayout(WheelNumbers)
  {
    forall n: Pocket ensures n in WheelNumbers {
      // three smaller case splits are much cheaper for the solver than one of 37 cases
      if n <= 12 {
      } else if n <= 24 {
      } else {
      }
    }
  }

  /**
   * indexOf over a wheel of 37 places, scanning from place i on; a pocket not met
   * before the last place is taken to sit there.
   */
  function PlaceFrom(wheel: seq<Pocket>, n: Pocket, i: nat): (r: nat)
    requires |wheel| == 37 && i <= 36
    ensures i <= r < 37
    decreases 36 - i
  {
    if i == 36 || wheel[i] == n then i else PlaceFrom(wheel, n, i + 1)
  }

  /** wheelNumbers.indexOf(n) for a pocket n: where n sits on the wheel. */
  function Position(n: Pocket): (i: nat)
    ensures i < 37
  {
    PlaceFrom(WheelNumbers, n, 0)
  }

  /** On a layout the scan from place 0 is indexOf: it stops at the place that holds n. */
  lemma {:induction false} PlaceFromIsIndexOf(wheel: seq<Pocket>, n: Pocket, i: nat)
    requires IsLayout(wheel) && i <= 36
    requires forall j :: 0 <= j < i ==> wheel[j] != n
    ensures PlaceFrom(wheel, n, i) == IndexOf(wheel, n)
    decreases 36 - i
  {
    LayoutIsDistinct(wheel);
    var p := IndexOf(wheel, n);
    if i < 36 && wheel[i] != n {
      PlaceFromIsIndexOf(wheel, n, i + 1);
    }
  }

  /** On a layout the scan finds the place that holds n. */
  lemma PlaceFromFinds(wheel: seq<Pocket>, n: Pocket)
    requires IsLayout(wheel)
    ensures wheel[PlaceFrom(wheel, n, 0)] == n
  {
    PlaceFromIsIndexOf(wheel, n, 0);
  }

  /** On a layout the scan for the pocket at place i stops at place i. */
  lemma PlaceFromOfPlace(wheel: seq<Pocket>, i: nat)
    requires IsLayout(wheel) && i < 37
    ensures PlaceFrom(wheel, wheel[i], 0) == i
  {
    IndexOfPlace(wheel, i);
    PlaceFromIsIndexOf(wheel, wheel[i], 0);
  }

  /** Position is indexOf over the wheel: the place it names holds n, and no earlier place does. */
  lemma PositionIsIndexOf(n: Pocket)
    ensures Position(n) == IndexOf(WheelNumbers, n)
    ensures WheelNumbers[Position(n)] == n
  {
    WheelNumbersIsLayout();
    PlaceFromIsIndexOf(WheelNumbers, n, 0);
  }

  /** The place Position names holds the pocket. */
  lemma PositionHolds(n: Pocket)
    ensures WheelNumbers[Position(n)] == n
  {
    WheelNumbersIsLayout();
    PlaceFromFinds(WheelNumbers, n);
  }

  /** The pockets that occur in s. */
  function Elements(s: seq<int>): set<int>
  {
    set x | x in s
  }

  lemma {:induction false} ElementsAtMostLength(s: seq<int>)
    ensures |Elements(s)| <= |s|
  {
    if s != [] {
      ElementsAtMostLength(s[1..]);
      assert Elements(s) == {s[0]} + Elements(s[1..]);
    }
  }

  /** The numbers 0..n-1, as a set. */
  function Below(n: nat): (r: set<int>)
    ensures forall x :: x in r <==> 0 <= x < n
    ensures |r| == n
  {
    if n == 0 then {} else Below(n - 1) + {n - 1}
  }

  lemma SubsetSize(a: set<int>, b: set<int>)
    requires a <= b
    ensures |a| <= |b|
  {
    assert b == a + (b - a);
  }

  /** Pigeonhole: a sequence of length n that contains every one of 0..n-1 repeats nothing. */
  lemma {:induction false} CoveringIsDistinct(s: seq<int>, n: nat)
    requires |s| == n
    requires forall x :: 0 <= x < n ==> x in s
    ensures forall i, j :: 0 <= i < j < |s| ==> s[i] != s[j]
  {
    if i, j :| 0 <= i < j < |s| && s[i] == s[j] {
      var rest := s[..j] + s[j + 1..];
      var range := Below(n);
      forall x | x in range ensures x in Elements(rest) {
        assert x in s;
        var k :| 0 <= k < |s| && s[k] == x;
        if k == j {
          assert rest[i] == x;
        } else if k < j {
          assert rest[k] == x;
        } else {
          assert rest[k - 1] == x;
        }
      }
      ElementsAtMostLength(rest);
      SubsetSize(range, Elements(rest));
      assert false;
    }
  }

  /** No pocket appears twice round a layout. */
  lemma LayoutIsDistinct(wheel: seq<Pocket>)
    requires IsLayout(wheel)
    ensures forall i, j :: 0 <= i < j < |wheel| ==> wheel[i] != wheel[j]
  {
    CoveringIsDistinct(wheel, 37);
  }

  /** Looking up the pocket at place i of a layout finds place i again. */
  lemma IndexOfPlace(wheel: seq<Pocket>, i: nat)
    requires IsLayout(wheel) && i < 37
    ensures IndexOf(wheel, wheel[i]) == i
  {
    LayoutIsDistinct(wheel);
  }

  /**
   * The section of 2 * half + 1 places of a layout centred on place center, as the
   * loop at script.js:75-78 lays it out: element k is the place center - half + k,
   * counted round the wheel.
   */
  function SectionAround(wheel: seq<Pocket>, center: nat, half: nat): (s: seq<Pocket>)
    requires |wheel| == 37 && center < 37 && half <= 37
    ensures |s| == 2 * half + 1
    ensures s[half] == wheel[center]
  {
    seq(2 * half + 1, k => wheel[(center + (k - half) + 37) % 37])
  }

  /** How many places round from place b to place a, going the shorter way (negative: backwards). */
  function SignedOffset(a: nat, b: nat): (m: int)
    requires a < 37 && b < 37
    ensures -18 <= m <= 18
    ensures (b + m + 37) % 37 == a
  {
    var x := (a - b) % 37;
    if x <= 18 then x else x - 37
  }

  /** The number of places between two places of the wheel, going the shorter way round. */
  function CircularDistance(a: nat, b: nat): (d: nat)
    requires a < 37 && b < 37
    ensures d <= 18
    ensures d == 0 <==> a == b
  {
    var m := SignedOffset(a, b);
    if m < 0 then -m else m
  }

  /** Going m places round from place c, then measuring back from c, gives m again (mod 37). */
  lemma StepRound(c: int, m: int)
    requires 0 <= c < 37 && -18 <= m <= 18
    ensures ((c + m + 37) % 37 - c) % 37 == (if m >= 0 then m else 37 + m)
  {
  }

  lemma {:induction false} InSectionIsNearCenter(wheel: seq<Pocket>, center: nat, half: nat, n: Pocket)
    requires IsLayout(wheel) && center < 37 && 2 * half + 1 <= 37
    requires n in SectionAround(wheel, center, half)
    ensures CircularDistance(IndexOf(wheel, n), center) <= half
  {
    var s := SectionAround(wheel, center, half);
    var k :| 0 <= k < |s| && s[k] == n;
    var m := k - half;
    var place := (center + m + 37) % 37;
    assert n == wheel[place];
    IndexOfPlace(wheel, place);
    StepRound(center, m);
  }

  lemma {:induction false} NearCenterIsInSection(wheel: seq<Pocket>, center: nat, half: nat, n: Pocket)
    requires IsLayout(wheel) && center < 37 && 2 * half + 1 <= 37
    requires CircularDistance(IndexOf(wheel, n), center) <= half
    ensures n in SectionAround(wheel, center, half)
  {
    var s := SectionAround(wheel, center, half);
    var p := IndexOf(wheel, n);
    var m := SignedOffset(p, center);
    var k := half + m;
    assert s[k] == wheel[p];
  }

  /**
   * A section no wider than the wheel holds exactly the pockets that lie within
   * half places of its centre, going either way round.
   */
  lemma InSectionIffNearCenter(wheel: seq<Pocket>, center: nat, half: nat, n: Pocket)
    requires IsLayout(wheel) && center < 37 && 2 * half + 1 <= 37
    ensures n in SectionAround(wheel, center, half) <==> CircularDistance(IndexOf(wheel, n), center) <= half
  {
    if n in SectionAround(wheel, center, half) {
      InSectionIsNearCenter(wheel, center, half, n);
    }
    if CircularDistance(IndexOf(wheel, n), center) <= half {
      NearCenterIsInSection(wheel, center, half, n);
    }
  }

  /** The pocket at a place further than half places from the centre is not in the section. */
  lemma FarPlaceIsOutsideSection(wheel: seq<Pocket>, center: nat, half: nat, p: nat)
    requires IsLayout(wheel) && center < 37 && 2 * half + 1 <= 37 && p < 37
    requires CircularDistance(p, center) > half
    ensures wheel[p] !in SectionAround(wheel, center, half)
  {
    IndexOfPlace(wheel, p);
    InSectionIffNearCenter(wheel, center, half, wheel[p]);
  }

  /** Sections wrap round place 0: the 17 places centred on place 0 are the last 8 places, then the first 9. */
  lemma SectionAtZeroWraps(wheel: seq<Pocket>)
    requires |wheel| == 37
    ensures SectionAround(wheel, 0, 8) == wheel[29..] + wheel[..9]
  {
  }

  /** A section wider than the wheel comes round again: element k + 37 repeats element k. */
  lemma SectionRepeatsPastFullTurn(wheel: seq<Pocket>, center: nat, half: nat, k: nat)
    requires |wheel| == 37 && center < 37 && half <= 37
    requires k + 37 < 2 * half + 1
    ensures SectionAround(wheel, center, half)[k + 37] == SectionAround(wheel, center, half)[k]
  {
    // not needed for the proof, but it keeps the solver's cost low
    var i := center + (k - half) + 37;
    assert (i + 37) % 37 == i % 37;
  }
}
