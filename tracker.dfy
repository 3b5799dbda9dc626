/**
 * The tracker's state and its three handlers (script.js lines 11-45 and 144-156): the
 * spins entered so far, the direction recorded with each, the direction the next spin
 * will get, and what the page shows. Each handler changes the state and then redraws
 * the display; the section-size field the redraw reads is a parameter here.
 */
module Tracker {
  import opened Wheel
  import opened Analysis

  /** What updateDisplay writes to the page: the last spins ("None" when empty), the spin count and the assessment. */
  datatype Display = Display(lastNumbers: seq<Pocket>, spinCount: nat, assessment: Assessment)

  /** updateDisplay (script.js:38-45) for the spins and directions recorded so far. */
  function DisplayOf(allSpins: seq<Pocket>, spinDirections: seq<Direction>, sizeInput: int): (d: Display)
    requires |allSpins| == |spinDirections|
    requires |allSpins| >= 15 ==> SizeInputInRange(sizeInput)
    ensures |d.lastNumbers| == Min(15, |allSpins|)
    ensures allSpins == allSpins[..|allSpins| - |d.lastNumbers|] + d.lastNumbers
    ensures d.spinCount == |allSpins|
    ensures |allSpins| < 15 <==> d.assessment == NotApplicable
    ensures |allSpins| >= 15 ==> d.assessment == Assess(d.lastNumbers, spinDirections, sizeInput)
  {
    var recent := RecentSpins(allSpins);
    Display(recent, |allSpins|, Assess(recent, spinDirections, sizeInput))
  }

  /** The direction the next spin gets after one is entered. */
  function Flip(d: Direction): (e: Direction)
    ensures e != d
  {
    if d == Clockwise then Counterclockwise else Clockwise
  }

  /** The tracker's state as a value: the three variables at script.js:12-15. */
  datatype TrackerState = TrackerState(allSpins: seq<Pocket>, spinDirections: seq<Direction>, currentDirection: Direction)

  /** Every spin has its direction: the two histories have the same length. */
  predicate Paired(s: TrackerState)
  {
    |s.allSpins| == |s.spinDirections|
  }

  /** The state at page load: no spins, and the first spin will be clockwise. */
  const Initial := TrackerState([], [], Clockwise)

  /** enterNumber (script.js:28-36): record the spin with the current direction, then flip the direction. */
  function AfterEnter(s: TrackerState, number: Pocket): (t: TrackerState)
    ensures Paired(s) ==> Paired(t)
    ensures |t.allSpins| == |s.allSpins| + 1 && t.allSpins[|s.allSpins|] == number
    ensures t.allSpins[..|s.allSpins|] == s.allSpins
    ensures |t.spinDirections| == |s.spinDirections| + 1
    ensures t.spinDirections[..|s.spinDirections|] == s.spinDirections
    ensures t.spinDirections[|s.spinDirections|] == s.currentDirection
    ensures t.currentDirection == Flip(s.currentDirection)
  {
    TrackerState(s.allSpins + [number], s.spinDirections + [s.currentDirection], Flip(s.currentDirection))
  }

  /**
   * The delete-last handler (script.js:152-156): pop both histories, a no-op on empty
   * ones. The spin count drops by one, and the direction for the next spin is left as it was.
   */
  function AfterDelete(s: TrackerState): (t: TrackerState)
    ensures Paired(s) ==> Paired(t)
    ensures |t.allSpins| == if s.allSpins == [] then 0 else |s.allSpins| - 1
    ensures t.allSpins == s.allSpins[..|t.allSpins|]
    ensures t.spinDirections == s.spinDirections[..if s.spinDirections == [] then 0 else |s.spinDirections| - 1]
    ensures t.currentDirection == s.currentDirection
  {
    var spins := if s.allSpins == [] then s.allSpins else s.allSpins[..|s.allSpins| - 1];
    var dirs := if s.spinDirections == [] then s.spinDirections else s.spinDirections[..|s.spinDirections| - 1];
    TrackerState(spins, dirs, s.currentDirection)
  }

  /** The clear-all handler (script.js:145-149): empty both histories; the direction for the next spin is kept. */
  function AfterClear(s: TrackerState): (t: TrackerState)
    ensures Paired(t) && t.allSpins == []
    ensures t.currentDirection == s.currentDirection
  {
    TrackerState([], [], s.currentDirection)
  }

  /** Entering the numbers one after another. */
  function EnterAll(s: TrackerState, numbers: seq<Pocket>): (t: TrackerState)
    ensures |t.allSpins| == |s.allSpins| + |numbers|
    ensures |t.spinDirections| == |s.spinDirections| + |numbers|
    decreases |numbers|
  {
    if numbers == [] then s else EnterAll(AfterEnter(s, numbers[0]), numbers[1..])
  }

  /** n directions alternating, starting with d. */
  function AlternatingFrom(d: Direction, n: nat): (ds: seq<Direction>)
    ensures |ds| == n
    ensures forall k :: 0 <= k < n ==> (ds[k] == d <==> k % 2 == 0)
    decreases n
  {
    if n == 0 then []
    else
      var rest := AlternatingFrom(Flip(d), n - 1);
      assert forall k :: 1 <= k < n ==> ([d] + rest)[k] == rest[k - 1];
      [d] + rest
  }

  /**
   * Entering spins appends them to the history with directions alternating from the
   * current one, and leaves the current direction flipped once per spin.
   */
  lemma {:induction false} EnterAllAlternates(s: TrackerState, numbers: seq<Pocket>)
    ensures EnterAll(s, numbers).allSpins == s.allSpins + numbers
    ensures EnterAll(s, numbers).spinDirections == s.spinDirections + AlternatingFrom(s.currentDirection, |numbers|)
    ensures EnterAll(s, numbers).currentDirection ==
      if |numbers| % 2 == 0 then s.currentDirection else Flip(s.currentDirection)
    decreases |numbers|
  {
    if numbers != [] {
      var t := AfterEnter(s, numbers[0]);
      EnterAllAlternates(t, numbers[1..]);
      assert s.allSpins + numbers == t.allSpins + numbers[1..];
      assert Flip(Flip(s.currentDirection)) == s.currentDirection;
      assert AlternatingFrom(s.currentDirection, |numbers|) ==
        [s.currentDirection] + AlternatingFrom(t.currentDirection, |numbers| - 1);
    }
  }

  /** From page load, spin k is recorded clockwise exactly when k is even. */
  lemma FreshTrackerAlternates(numbers: seq<Pocket>)
    ensures var t := EnterAll(Initial, numbers);
      Paired(t) && forall k :: 0 <= k < |numbers| ==> (t.spinDirections[k] == Clockwise <==> k % 2 == 0)
  {
    EnterAllAlternates(Initial, numbers);
    assert EnterAll(Initial, numbers).spinDirections == AlternatingFrom(Clockwise, |numbers|);
  }

  /**
   * Clearing does not restart the alternation: the first spin entered after a clear
   * gets the direction that was current before it, which is counterclockwise after an
   * odd number of spins from page load.
   */
  lemma ClearKeepsAlternation(numbers: seq<Pocket>, more: seq<Pocket>)
    requires |numbers| % 2 == 1 && more != []
    ensures EnterAll(AfterClear(EnterAll(Initial, numbers)), more).spinDirections[0] == Counterclockwise
  {
    EnterAllAlternates(Initial, numbers);
    var cleared := AfterClear(EnterAll(Initial, numbers));
    EnterAllAlternates(cleared, more);
  }

  /**
   * Deleting the spin just entered restores both histories but not the direction:
   * the next spin gets the opposite of the direction the deleted one had.
   */
  lemma DeleteUndoesEnterButNotDirection(s: TrackerState, number: Pocket)
    ensures AfterDelete(AfterEnter(s, number)) ==
      TrackerState(s.allSpins, s.spinDirections, Flip(s.currentDirection))
  {
  }

  /**
   * Once the window is full, step j of the window reads the direction recorded for the
   * j-th spin ever entered. From 16 spins on, that is not the direction of either spin
   * the step compares. Two histories with the same spins whose direction histories agree
   * on their first 14 entries show the same bias, whatever directions the spins after the
   * 14th have.
   */
  lemma BiasReadsFirstDirections(allSpins: seq<Pocket>, d1: seq<Direction>, d2: seq<Direction>, sizeInput: int)
    requires |allSpins| == |d1| == |d2| && |allSpins| >= 15
    requires SizeInputInRange(sizeInput)
    requires d1[..14] == d2[..14]
    ensures DisplayOf(allSpins, d1, sizeInput).assessment.biasCount ==
            DisplayOf(allSpins, d2, sizeInput).assessment.biasCount
  {
    var places := Places(RecentSpins(allSpins));
    forall j | 0 <= j && j + 1 < |places| ensures d1[j] == d2[j] {
      assert d1[j] == d1[..14][j];
    }
    BiasReadsLeadingDirections(places, d1, d2, 0);
  }

  /** The tracker page: the state of script.js:12-15 and what it last drew. */
  class SpinTracker {
    var allSpins: seq<Pocket>
    var spinDirections: seq<Direction>
    var currentDirection: Direction
    var shown: Display

    function State(): TrackerState
      reads this
    {
      TrackerState(allSpins, spinDirections, currentDirection)
    }

    ghost predicate Valid()
      reads this
    {
      Paired(State())
    }

    /** Page load: empty histories, clockwise next, and nothing recorded on display. */
    constructor ()
      ensures Valid() && State() == Initial
      ensures shown == Display([], 0, NotApplicable)
    {
      allSpins := [];
      spinDirections := [];
      currentDirection := Clockwise;
      shown := Display([], 0, NotApplicable);
    }

    /** updateDisplay: redraw from the current state; sizeInput is the section-size field's value. */
    method UpdateDisplay(sizeInput: int)
      requires Valid()
      requires |allSpins| >= 15 ==> SizeInputInRange(sizeInput)
      modifies this
      ensures State() == old(State())
      ensures shown == DisplayOf(allSpins, spinDirections, sizeInput)
    {
      var recentSpins := RecentSpins(allSpins);
      var assessment := CalculateOptimalSection(recentSpins, spinDirections, sizeInput);
      shown := Display(recentSpins, |allSpins|, assessment);
    }

    /** enterNumber: record the spin with the current direction, flip the direction, redraw. */
    method EnterNumber(number: Pocket, sizeInput: int)
      requires Valid()
      requires |allSpins| + 1 >= 15 ==> SizeInputInRange(sizeInput)
      modifies this
      ensures Valid()
      ensures State() == AfterEnter(old(State()), number)
      ensures shown == DisplayOf(allSpins, spinDirections, sizeInput)
    {
      allSpins := allSpins + [number];
      spinDirections := spinDirections + [currentDirection];
      currentDirection := if currentDirection == Clockwise then Counterclockwise else Clockwise;
      UpdateDisplay(sizeInput);
    }

    /** The delete-last handler: pop the last spin and its direction (nothing on empty histories), redraw. */
    method DeleteLast(sizeInput: int)
      requires Valid()
      requires |allSpins| - 1 >= 15 ==> SizeInputInRange(sizeInput)
      modifies this
      ensures Valid()
      ensures State() == AfterDelete(old(State()))
      ensures shown == DisplayOf(allSpins, spinDirections, sizeInput)
    {
      ghost var before := State();
      if |allSpins| > 0 {
        allSpins := allSpins[..|allSpins| - 1];
      }
      if |spinDirections| > 0 {
        spinDirections := spinDirections[..|spinDirections| - 1];
      }
      assert State() == AfterDelete(before);
      UpdateDisplay(sizeInput);
    }

    /** The clear-all handler: empty both histories, keep the direction, redraw. */
    method ClearAll(sizeInput: int)
      requires Valid()
      modifies this
      ensures Valid()
      ensures State() == AfterClear(old(State()))
      ensures shown == DisplayOf([], [], sizeInput)
    {
      allSpins := [];
      spinDirections := [];
      UpdateDisplay(sizeInput);
    }
  }
}
