/**
 * The assessment the tracker recomputes after every change (script.js lines 38-142):
 * the recent window, the optimal section around the most frequent pocket, the
 * High/Low hit-rate label with its safe-to-bet verdict, and the bias count. The DOM
 * writes of the source become the fields of an Assessment value; "N/A" is None.
 */
module Analysis {
  import opened Wrappers
  import opened Wheel
  import opened Frequency

  /** The direction recorded with a spin; the tracker alternates between the two. */
  datatype Direction = Clockwise | Counterclockwise

  datatype Probability = High | Low

  datatype Verdict = Yes | No

  /** What the tracker displays about the recent window; None is shown as "N/A". */
  datatype Assessment = Assessment(
    section: Option<seq<Pocket>>,
    center: Option<Pocket>,
    probability: Option<Probability>,
    biasCount: nat,
    safeToBet: Option<Verdict>)

  /** The display before 15 spins have been recorded (script.js:50-56): "N/A" everywhere and a bias of 0. */
  const NotApplicable: Assessment := Assessment(None, None, None, 0, None)

  function Min(a: int, b: int): int
  {
    if a <= b then a else b
  }

  /** `spins.slice(-15)`: the latest spins, at most 15 of them, oldest first. */
  function RecentSpins(spins: seq<Pocket>): (w: seq<Pocket>)
    ensures |w| == Min(15, |spins|)
    ensures spins == spins[..|spins| - |w|] + w
  {
    if |spins| <= 15 then spins else spins[|spins| - 15..]
  }

  /**
   * The section-size inputs this model covers. 0 stands for an input that is empty,
   * unparsable or zero, all of which `parseInt(...) || 17` replaces by 17.
   */
  predicate SizeInputInRange(sizeInput: int)
  {
    0 <= sizeInput <= 75
  }

  /** script.js:68-69: 0 becomes 17, and an even size becomes the next odd one. */
  function EffectiveSectionSize(sizeInput: int): (size: int)
    ensures size % 2 == 1
    ensures sizeInput == 0 ==> size == 17
    ensures sizeInput != 0 ==> sizeInput <= size <= sizeInput + 1
    ensures SizeInputInRange(sizeInput) ==> 1 <= size <= 75
  {
    var size := if sizeInput == 0 then 17 else sizeInput;
    if size % 2 == 0 then size + 1 else size
  }

  /**
   * The loop at script.js:71-78: the sectionSize wheel places centred on optimalIndex.
   * The index `optimalIndex + i + 37` is never negative here, so JavaScript's `%` and
   * Dafny's agree.
   */
  method BuildSection(optimalIndex: nat, sectionSize: int) returns (section: seq<Pocket>)
    requires optimalIndex < 37 && 1 <= sectionSize <= 75
    ensures section == SectionAround(WheelNumbers, optimalIndex, sectionSize / 2)
  {
    var half := sectionSize / 2;
    section := [];
    var i := -half;
    while i <= half
      invariant -half <= i <= half + 1
      invariant |section| == i + half
      invariant forall k :: 0 <= k < |section| ==>
        section[k] == WheelNumbers[(optimalIndex + (k - half) + 37) % 37]
    {
      var index := (optimalIndex + i + 37) % 37;
      section := section + [WheelNumbers[index]];
      i := i + 1;
    }
  }

  /** `relevantSpins.filter(spin => section.includes(spin)).length`: the spins that land in the section. */
  function SpinsInSection(spins: seq<Pocket>, section: seq<Pocket>): (hits: nat)
    ensures hits <= |spins|
    ensures hits == |spins| <==> forall x :: x in spins ==> x in section
    ensures hits == 0 <==> forall x :: x in spins ==> x !in section
    decreases |spins|
  {
    if spins == [] then 0
    else
      assert forall x :: x in spins <==> x == spins[0] || x in spins[1..];
      (if spins[0] in section then 1 else 0) + SpinsInSection(spins[1..], section)
  }

  /** Multiplying by a positive number keeps the sign. */
  lemma ProductSign(x: real, c: real)
    requires c > 0.0
    ensures x > 0.0 <==> x * c > 0.0
  {
  }

  /** The hit fraction lies between 0 and 1 when the hits are among the spins considered. */
  lemma FractionBounds(hits: nat, considered: nat)
    requires considered > 0
    ensures 0.0 <= hits as real / considered as real
    ensures hits <= considered ==> hits as real / considered as real <= 1.0
  {
  }

  /**
   * `spinsInSection / maxConsideredSpins * 100`, in exact arithmetic: a percentage
   * between 0 and 100 when the hits are among the spins considered.
   */
  function HitPercentage(hits: nat, considered: nat): (p: real)
    requires considered > 0
    ensures 0.0 <= p
    ensures hits <= considered ==> p <= 100.0
  {
    FractionBounds(hits, considered);
    (hits as real / considered as real) * 100.0
  }

  /** The percentage is above 50 exactly when the hits are more than half of the spins considered. */
  lemma PercentAboveHalfIffMajority(hits: nat, considered: nat)
    requires considered > 0
    ensures HitPercentage(hits, considered) > 50.0 <==> 2 * hits > considered
  {
    var h, c := hits as real, considered as real;
    var q := h / c;
    var p := HitPercentage(hits, considered);
    assert q * c == h;
    assert p == q * 100.0;
    ProductSign(q - 0.5, c);
    assert (q - 0.5) * c == h - 0.5 * c;
    if 2 * hits > considered {
      assert (q - 0.5) * c > 0.0;
    } else {
      assert !((q - 0.5) * c > 0.0);
      assert !(q - 0.5 > 0.0);
    }
  }

  /**
   * script.js:103-114: High when more than half the considered spins land in the
   * section, Low otherwise (also when nothing is considered, where the percentage is NaN).
   */
  function ProbabilityOf(hits: nat, considered: nat): (p: Probability)
    requires hits <= considered
    ensures p == High <==> 2 * hits > considered
  {
    if considered > 0 then
      PercentAboveHalfIffMajority(hits, considered);
      if HitPercentage(hits, considered) > 50.0 then High else Low
    else Low
  }

  /** `Math.abs(p - q)`: how far apart two wheel places are as indices, ignoring that the wheel is round. */
  function Gap(p: int, q: int): nat
  {
    if p < q then q - p else p - q
  }

  /**
   * The distance script.js:130 measures between two pockets: the plain difference of
   * their wheel places, not the shorter way round. It is 0 only for the same pocket.
   */
  function Distance(a: Pocket, b: Pocket): (d: nat)
    ensures d <= 36
    ensures d == 0 <==> a == b
  {
    PositionHolds(a);
    PositionHolds(b);
    Gap(Position(a), Position(b))
  }

  /** The wheel places of the spins, in order: `wheelNumbers.indexOf(spin)` for each. */
  function Places(spins: seq<Pocket>): (ps: seq<int>)
    ensures |ps| == |spins|
  {
    seq(|spins|, k requires 0 <= k < |spins| => Position(spins[k]))
  }

  /** The test at script.js:133; a step of exactly 18 places never counts, whichever the direction. */
  predicate CountsAsBias(direction: Direction, distance: int): (b: bool)
    ensures distance == 18 ==> !b
  {
    || (direction == Clockwise && distance < 18)
    || (direction == Counterclockwise && distance > 18)
  }

  /**
   * The biased steps among steps i.. of a window whose spins sit at the given wheel
   * places. Step j compares spin j + 1 with spin j and reads spinDirections[j]: the
   * index into the window is used on the whole direction history, as script.js:129 does.
   */
  function BiasFrom(places: seq<int>, spinDirections: seq<Direction>, i: nat): (n: nat)
    requires |places| <= |spinDirections|
    ensures i < |places| ==> n <= |places| - 1 - i
    ensures i + 1 >= |places| ==> n == 0
    decreases |places| - i
  {
    if i + 1 >= |places| then 0
    else
      (if CountsAsBias(spinDirections[i], Gap(places[i + 1], places[i])) then 1 else 0)
      + BiasFrom(places, spinDirections, i + 1)
  }

  /** The steps from step i on that count as biased, as a set of step indices. */
  ghost function BiasedSteps(places: seq<int>, spinDirections: seq<Direction>, i: nat): set<nat>
    requires |places| <= |spinDirections|
  {
    set j: nat | i <= j && j + 1 < |places| && CountsAsBias(spinDirections[j], Gap(places[j + 1], places[j]))
  }

  /**
   * The bias count is the number of biased steps: a clockwise step shorter than 18
   * places or a counterclockwise step longer than 18.
   */
  lemma {:induction false} BiasCountsBiasedSteps(places: seq<int>, spinDirections: seq<Direction>, i: nat)
    requires |places| <= |spinDirections|
    ensures BiasFrom(places, spinDirections, i) == |BiasedSteps(places, spinDirections, i)|
    decreases |places| - i
  {
    var steps := BiasedSteps(places, spinDirections, i);
    if i + 1 >= |places| {
      assert steps == {};
    } else {
      BiasCountsBiasedSteps(places, spinDirections, i + 1);
      var later := BiasedSteps(places, spinDirections, i + 1);
      if CountsAsBias(spinDirections[i], Gap(places[i + 1], places[i])) {
        assert steps == {i} + later;
      } else {
        assert steps == later;
      }
    }
  }

  /**
   * The bias reads spinDirections only at the window's indices 0..|places|-2: two
   * direction histories that agree there give the same count, whatever they hold at
   * later indices.
   */
  lemma {:induction false} BiasReadsLeadingDirections(
    places: seq<int>, d1: seq<Direction>, d2: seq<Direction>, i: nat)
    requires |places| <= |d1| && |places| <= |d2|
    requires forall j :: i <= j && j + 1 < |places| ==> d1[j] == d2[j]
    ensures BiasFrom(places, d1, i) == BiasFrom(places, d2, i)
    decreases |places| - i
  {
    if i + 1 < |places| {
      BiasReadsLeadingDirections(places, d1, d2, i + 1);
    }
  }

  /** The bias distance is not the distance round the wheel: 0 and 26 are neighbours, yet 36 apart. */
  lemma NeighboursCanBeFarApart()
    ensures Distance(0, 26) == 36
    ensures CircularDistance(Position(0), Position(26)) == 1
  {
    WheelNumbersIsLayout();
    PlaceFromOfPlace(WheelNumbers, 0);
    PlaceFromOfPlace(WheelNumbers, 36);
    assert WheelNumbers[0] == 0 && WheelNumbers[36] == 26;
  }

  /** calculateBias (script.js:122-142): walk the window backwards, counting biased steps. */
  method CalculateBias(recent: seq<Pocket>, spinDirections: seq<Direction>) returns (biasCount: nat)
    requires |recent| <= |spinDirections|
    ensures biasCount == BiasFrom(Places(recent), spinDirections, 0)
  {
    biasCount := 0;
    if |recent| == 0 {
      // no last number and no step to compare
      return;
    }
    var lastNumber := recent[|recent| - 1];
    var i := |recent| - 2;
    while i >= 0
      invariant -1 <= i <= |recent| - 2
      invariant lastNumber == recent[i + 1]
      invariant biasCount == BiasFrom(Places(recent), spinDirections, i + 1)
    {
      var currentNumber := recent[i];
      var currentDirection := spinDirections[i];
      var distance := Distance(lastNumber, currentNumber);
      if CountsAsBias(currentDirection, distance) {
        biasCount := biasCount + 1;
      }
      lastNumber := currentNumber;
      i := i - 1;
    }
  }

  /** The object determineSafeToBet returns. */
  datatype SafeToBetResult = SafeToBetResult(probability: Probability, biasCount: nat, safeToBet: Verdict)

  /**
   * determineSafeToBet (script.js:95-119): the label says whether more than half of the
   * last (up to) 15 spins land in the section, the verdict follows the label, and the
   * bias is counted over the whole window.
   */
  function SafeToBet(recent: seq<Pocket>, section: seq<Pocket>, spinDirections: seq<Direction>): (r: SafeToBetResult)
    requires |recent| <= |spinDirections|
    ensures r.probability == High <==>
      2 * SpinsInSection(RecentSpins(recent), section) > |RecentSpins(recent)|
    ensures r.safeToBet == Yes <==> r.probability == High
    ensures r.biasCount == BiasFrom(Places(recent), spinDirections, 0)
  {
    var considered := Min(15, |recent|);
    var relevant := RecentSpins(recent);
    var probability := ProbabilityOf(SpinsInSection(relevant, section), considered);
    var safe := if probability == High then Yes else No;
    SafeToBetResult(probability, BiasFrom(Places(recent), spinDirections, 0), safe)
  }

  /** determineSafeToBet as the source runs it, with calculateBias's loop. */
  method DetermineSafeToBet(recent: seq<Pocket>, section: seq<Pocket>, spinDirections: seq<Direction>)
    returns (r: SafeToBetResult)
    requires |recent| <= |spinDirections|
    ensures r == SafeToBet(recent, section, spinDirections)
  {
    var considered := Min(15, |recent|);
    var relevant := RecentSpins(recent);
    var hits := SpinsInSection(relevant, section);
    var probability, safe;
    if considered > 0 && HitPercentage(hits, considered) > 50.0 {
      probability, safe := High, Yes;
    } else {
      probability, safe := Low, No;
    }
    var biasCount := CalculateBias(recent, spinDirections);
    r := SafeToBetResult(probability, biasCount, safe);
  }

  /**
   * The assessment calculateOptimalSection displays for the window `recent`. From 15
   * spins on: the section has the effective size and is centred on the place of the
   * most frequent pocket, which is the centre number; the label is High exactly when
   * more than half the spins land in the section; the verdict follows the label.
   */
  function Assess(recent: seq<Pocket>, spinDirections: seq<Direction>, sizeInput: int): (a: Assessment)
    requires |recent| <= |spinDirections|
    requires |recent| >= 15 ==> SizeInputInRange(sizeInput)
    ensures |recent| < 15 ==> a == NotApplicable
    ensures |recent| >= 15 ==>
      && a.section.Some? && a.center.Some? && a.probability.Some? && a.safeToBet.Some?
      && |a.section.value| == EffectiveSectionSize(sizeInput)
      && a.center.value == MostFrequent(recent)
      && a.section.value[|a.section.value| / 2] == a.center.value
      && a.section.value == SectionAround(WheelNumbers, Position(a.center.value), |a.section.value| / 2)
      && (a.probability.value == High <==>
            2 * SpinsInSection(RecentSpins(recent), a.section.value) > |RecentSpins(recent)|)
      && (a.safeToBet.value == Yes <==> a.probability.value == High)
      && a.biasCount == BiasFrom(Places(recent), spinDirections, 0)
      && a.biasCount < |recent|
  {
    if |recent| < 15 then NotApplicable
    else
      var frequentNumber := MostFrequent(recent);
      var optimalIndex := Position(frequentNumber);
      PositionHolds(frequentNumber);
      var sectionSize := EffectiveSectionSize(sizeInput);
      var section := SectionAround(WheelNumbers, optimalIndex, sectionSize / 2);
      var centerNumber := section[|section| / 2];
      var r := SafeToBet(recent, section, spinDirections);
      Assessment(Some(section), Some(centerNumber), Some(r.probability), r.biasCount, Some(r.safeToBet))
  }

  /** calculateOptimalSection (script.js:48-92) as the source runs it, with its loops. */
  method CalculateOptimalSection(recent: seq<Pocket>, spinDirections: seq<Direction>, sizeInput: int)
    returns (a: Assessment)
    requires |recent| <= |spinDirections|
    requires |recent| >= 15 ==> SizeInputInRange(sizeInput)
    ensures a == Assess(recent, spinDirections, sizeInput)
  {
    if |recent| < 15 {
      return NotApplicable;
    }
    var frequentNumber := MostFrequent(recent);
    var optimalIndex := Position(frequentNumber);
    var sectionSize := EffectiveSectionSize(sizeInput);
    var section := BuildSection(optimalIndex, sectionSize);
    var centerNumber := section[|section| / 2];
    var r := DetermineSafeToBet(recent, section, spinDirections);
    a := Assessment(Some(section), Some(centerNumber), Some(r.probability), r.biasCount, Some(r.safeToBet));
  }

  /** Re-windowing a window changes nothing, so determineSafeToBet considers every spin it is given. */
  lemma RecentSpinsIdempotent(spins: seq<Pocket>)
    ensures RecentSpins(RecentSpins(spins)) == RecentSpins(spins)
  {
  }

  lemma {:induction false} SpinsInSectionSplits(a: seq<Pocket>, b: seq<Pocket>, section: seq<Pocket>)
    ensures SpinsInSection(a + b, section) == SpinsInSection(a, section) + SpinsInSection(b, section)
    decreases |a|
  {
    if a == [] {
      assert a + b == b;
    } else {
      assert (a + b)[0] == a[0];
      assert (a + b)[1..] == a[1..] + b;
      SpinsInSectionSplits(a[1..], b, section);
    }
  }

  /** The default section round the zero: the last 8 places and the first 9; it holds 0 but not 1. */
  lemma DefaultSectionAtZero()
    ensures SectionAround(WheelNumbers, Position(0), 8) == WheelNumbers[29..] + WheelNumbers[..9]
    ensures 0 in SectionAround(WheelNumbers, Position(0), 8)
    ensures 1 !in SectionAround(WheelNumbers, Position(0), 8)
  {
    WheelNumbersIsLayout();
    PlaceFromOfPlace(WheelNumbers, 0);
    assert Position(0) == 0;
    SectionAtZeroWraps(WheelNumbers);
    FarPlaceIsOutsideSection(WheelNumbers, 0, 8, 23);
    assert WheelNumbers[23] == 1;
  }

  /** Eight zeros and seven ones: 0 is the most frequent pocket. */
  lemma ZerosOutnumberOnes(zeros: seq<Pocket>, ones: seq<Pocket>)
    requires |zeros| == 8 && forall x :: x in zeros ==> x == 0
    requires |ones| == 7 && forall x :: x in ones ==> x == 1
    ensures MostFrequent(zeros + ones) == 0
  {
    var recent := zeros + ones;
    RunCounts(zeros, 0);
    RunCounts(ones, 1);
    assert multiset(recent) == multiset(zeros) + multiset(ones);
    var r := MostFrequent(recent);
    assert r in zeros || r in ones;
  }

  /** Eight zeros then seven ones against a section holding 0 but not 1: the eight zeros are the hits. */
  lemma ZerosAreTheHits(zeros: seq<Pocket>, ones: seq<Pocket>, section: seq<Pocket>)
    requires |zeros| == 8 && forall x :: x in zeros ==> x == 0
    requires |ones| == 7 && forall x :: x in ones ==> x == 1
    requires 0 in section && 1 !in section
    ensures SpinsInSection(zeros + ones, section) == 8
  {
    SpinsInSectionSplits(zeros, ones, section);
  }

  /**
   * Eight zeros then seven ones, default size: 0 is the most frequent pocket, the
   * 17-place section round it wraps past the zero, and the eight zeros in it make 8 of
   * 15 spins, so the label is High and it is safe to bet.
   */
  lemma EightZerosSevenOnes(zeros: seq<Pocket>, ones: seq<Pocket>, spinDirections: seq<Direction>, sizeInput: int)
    requires |zeros| == 8 && forall x :: x in zeros ==> x == 0
    requires |ones| == 7 && forall x :: x in ones ==> x == 1
    requires |spinDirections| >= 15
    requires SizeInputInRange(sizeInput) && EffectiveSectionSize(sizeInput) == 17
    ensures var a := Assess(zeros + ones, spinDirections, sizeInput);
      && a.center == Some(0)
      && a.section == Some(WheelNumbers[29..] + WheelNumbers[..9])
      && a.probability == Some(High)
      && a.safeToBet == Some(Yes)
  {
    ZerosOutnumberOnes(zeros, ones);
    DefaultSectionAtZero();
    ZerosAreTheHits(zeros, ones, SectionAround(WheelNumbers, Position(0), 8));
    RecentSpinsIdempotent(zeros + ones);
  }
}
