# Roulette spin tracker, modelled in Dafny

A model of `script.js`, a browser page for tracking roulette spins. The user enters spin
results (0 to 36). The tracker records each one with an alternating spin direction,
clockwise or counterclockwise. After every change it redraws an assessment of the last
15 spins, which has five parts:

- the most frequent pocket. A tie goes to the numerically largest pocket.
- an "optimal section": the odd-sized run of wheel places centred on that pocket. The
  size comes from a user field and defaults to 17.
- a High/Low label. High means more than half of the spins landed in the section.
- a Yes/No "safe to bet" verdict, which follows the label.
- a "bias count" over consecutive spins. It compares the index distance of the two
  spins' wheel places against the direction stored at the step's index in the window.

With fewer than 15 spins every part reads "N/A", and the bias reads 0.

The modules follow the program's structure:

- `Wheel` (`wheel.dfy`) covers the European wheel order, `indexOf`, where a pocket sits
  on the wheel, and sections centred on a place.
- `Frequency` (`frequency.dfy`) covers the frequency tally and the reduce that picks
  the most frequent pocket.
- `Analysis` (`analysis.dfy`) covers the window, the section size, the section-building
  loop, hits and the High/Low label, the bias loop, and `calculateOptimalSection` as a
  function and as a method.
- `Tracker` (`tracker.dfy`) holds the state as a value (`TrackerState`) with one
  function per handler, and the class `SpinTracker`. Its methods `EnterNumber`,
  `DeleteLast` and `ClearAll` update the fields in place and redraw. Each method
  states its new state as that function of its old state.
- `Wrappers` (`wrappers.dfy`) holds `Option`, whose `None` is the page's "N/A".

The model keeps these behaviours of the code, although a reader might expect otherwise:

- Clear-all does not reset the direction, so the next spin gets the direction that was
  current before the clear.
- Delete-last does not restore the direction either.
- The spin count drops on delete, although the comment at script.js:42 calls it
  continually increasing.
- A tie for most frequent goes to the largest pocket, not to the first one seen. This
  is because `Object.keys` lists integer keys in ascending order, and the reduce hands
  the lead to the later key on equal counts.
- The bias reads `spinDirections[i]` with `i` an index into the 15-spin window. Step i
  of the window therefore reads the direction recorded for the i-th spin ever entered.
  With exactly 15 spins, that is the direction of the earlier spin the step compares.
  From 16 spins on, it is not the direction of either spin the step compares.

## Model

| member | source | states |
|---|---|---|
| Wheel.IndexOf | script.js:66 | `indexOf` returns -1 exactly when x is absent. Otherwise it returns an index that holds x, and no earlier index does. |
| Wheel.WheelNumbersIsLayout | script.js:18 | The 37-entry wheel order holds every pocket 0..36. |
| Wheel.LayoutIsDistinct | script.js:18 | A 37-place layout holding every pocket repeats none (pigeonhole). |
| Wheel.IndexOfPlace | script.js:66 | On a layout, `indexOf` of the pocket at place i is i. |
| Wheel.Position | script.js:66 | The place of a pocket is below 37 (weaker than the source; the full fact is Wheel.PositionIsIndexOf). |
| Wheel.PositionIsIndexOf | script.js:66 | The place of a pocket is `wheelNumbers.indexOf(n)`, and the wheel holds n there. |
| Wheel.SectionAround | script.js:71-78 | The section has 2*half+1 places, and its middle element is the pocket at the centre place. |
| Wheel.InSectionIffNearCenter | script.js:75-77 | A section no wider than the wheel holds a pocket if and only if the pocket's place is within half places of the centre, counted the shorter way round. |
| Wheel.FarPlaceIsOutsideSection | script.js:75-77 | The pocket at a place more than half places from the centre is not in the section. |
| Wheel.SectionAtZeroWraps | script.js:75-77 | The 17-place section at place 0 is the last 8 places followed by the first 9. |
| Wheel.SectionRepeatsPastFullTurn | script.js:68-78 | A section wider than the wheel repeats: element k+37 is element k. |
| Frequency.Tally | script.js:59-62 | The tally has a key exactly for the pockets in the window, and each count is the pocket's number of occurrences. |
| Frequency.TallyCountsEverySpin | script.js:59-62 | The tally's counts add up to the window's length. |
| Frequency.KeysFrom | script.js:65 | `Object.keys` of the tally lists exactly the counted pockets, in strictly ascending order. |
| Frequency.PickFrequent | script.js:65 | The reduce returns a visited key with the largest count. Among keys with that count it returns the last one, i.e. the largest. |
| Frequency.MostFrequent | script.js:59-65 | The chosen pocket occurs in the window, nothing occurs more often, and every pocket that occurs as often is smaller or equal. |
| Frequency.RunCounts | script.js:59-62 | A run of equal spins counts its pocket once per spin and no other pocket. |
| Frequency.TieGoesToLargerPocket | script.js:65 | Seven 5s, seven 32s and a 0 give 32, although 5 was seen first. |
| Analysis.RecentSpins | script.js:39 | The window has min(15, n) spins and is a suffix of the history. |
| Analysis.RecentSpinsIdempotent | script.js:96-97 | Taking the last 15 of the window again changes nothing. |
| Analysis.EffectiveSectionSize | script.js:68-69 | The size is odd, input 0 (empty, NaN or zero) gives 17, any other input is kept or raised by one, and inputs 0..75 give 1..75. |
| Analysis.BuildSection | script.js:71-78 | The loop builds exactly the section of sectionSize/2 places either side of the optimal index. |
| Analysis.SpinsInSection | script.js:100 | The hit count is at most the number of spins, equals it if and only if every spin is in the section, and is 0 if and only if none is. |
| Analysis.SpinsInSectionSplits | script.js:100 | Hits over two joined runs of spins are the sum of the hits over each run. |
| Analysis.FractionBounds | script.js:103 | The hit fraction is at least 0, and at most 1 when the hits are among the spins considered. |
| Analysis.HitPercentage | script.js:103 | The percentage is at least 0, and at most 100 when the hits are among the spins considered. |
| Analysis.PercentAboveHalfIffMajority | script.js:103-108 | The percentage exceeds 50 if and only if the hits exceed half of the spins considered. |
| Analysis.ProbabilityOf | script.js:103-114 | The label is High if and only if 2*hits > considered. |
| Analysis.Distance | script.js:130 | The bias distance is at most 36, and it is 0 if and only if the two pockets are equal. |
| Analysis.CountsAsBias | script.js:133 | A step of exactly 18 places never counts, in either direction. |
| Analysis.BiasFrom | script.js:127-139 | The bias over a window of n spins is at most n-1, and 0 with fewer than two spins. |
| Analysis.BiasCountsBiasedSteps | script.js:127-136 | The bias equals the number of steps that are clockwise and under 18 places, or counterclockwise and over 18. |
| Analysis.BiasReadsLeadingDirections | script.js:127-129 | The bias depends on the direction history only at indices 0..n-2 of the window. |
| Analysis.NeighboursCanBeFarApart | script.js:130 | Pockets 0 and 26 are neighbours on the wheel, yet their bias distance is 36. |
| Analysis.CalculateBias | script.js:122-142 | The backward loop returns the bias function of the window and the direction history. |
| Analysis.SafeToBet | script.js:95-119 | The label is High if and only if more than half of the last (up to) 15 spins are in the section. The verdict is Yes exactly when the label is High. The bias is that of the whole window. |
| Analysis.DetermineSafeToBet | script.js:95-119 | The method, with its loop, returns the SafeToBet result. |
| Analysis.Assess | script.js:48-92 | Under 15 spins everything is N/A and the bias is 0. Otherwise the parts are as follows. The section has the effective size and is centred on the place of the most frequent pocket. The centre number is that pocket. The label is High if and only if most spins are hits. The verdict follows the label. The bias is the bias function of the window's places and the direction history, and is below the window length. |
| Analysis.CalculateOptimalSection | script.js:48-92 | The method, with its loops, returns the Assess result. |
| Analysis.DefaultSectionAtZero | script.js:68-78 | The 17-place section round pocket 0 wraps round the wheel, holds 0 and does not hold 1. |
| Analysis.ZerosOutnumberOnes | script.js:59-65 | Eight 0s and seven 1s make 0 the most frequent pocket. |
| Analysis.ZerosAreTheHits | script.js:100 | Against a section holding 0 but not 1, eight 0s then seven 1s give 8 hits. |
| Analysis.EightZerosSevenOnes | script.js:48-114 | Eight 0s then seven 1s at the default size give centre 0, the wrapped 17-place section round 0, High, and Yes. |
| Tracker.DisplayOf | script.js:38-45 | The page shows the last min(15, n) spins (a suffix of the history) and the count n. The assessment is N/A if and only if fewer than 15 spins are recorded. From 15 spins on, it is Assess of the shown window and the direction history. |
| Tracker.Flip | script.js:33 | The next direction is always the other one. |
| Tracker.AfterEnter | script.js:28-33 | Entering keeps the histories paired. It appends the number and keeps the earlier spins. It appends the current direction and keeps the earlier directions. The next direction is flipped. |
| Tracker.AfterDelete | script.js:152-155 | Deleting keeps the histories paired and is a no-op on an empty history. Otherwise the count drops by one, the remaining spins are a prefix, and the last direction is popped too. The next direction is unchanged. |
| Tracker.AfterClear | script.js:145-148 | Clearing empties both histories and keeps the next direction. |
| Tracker.AlternatingFrom | script.js:33 | n alternating directions: entry k is the starting direction exactly when k is even. |
| Tracker.EnterAllAlternates | script.js:28-33 | Entering several spins appends them, and appends directions alternating from the current one. The direction is flipped once per spin. |
| Tracker.FreshTrackerAlternates | script.js:15-33 | From page load, spin k is recorded clockwise exactly when k is even. |
| Tracker.ClearKeepsAlternation | script.js:145-149 | After an odd number of spins and a clear, the next spin is recorded counterclockwise. |
| Tracker.DeleteUndoesEnterButNotDirection | script.js:152-156 | Deleting the spin just entered restores both histories, but the next direction stays flipped. |
| Tracker.BiasReadsFirstDirections | script.js:116-129 | From 15 spins on, histories with the same spins and the same first 14 directions show the same bias, whatever directions the spins after the 14th have. |
| Tracker.SpinTracker.constructor | script.js:12-15 | Page load: empty histories, and clockwise next. |
| Tracker.SpinTracker.UpdateDisplay | script.js:38-45 | Redrawing leaves the state alone and shows DisplayOf the current state. |
| Tracker.SpinTracker.EnterNumber | script.js:28-36 | The new state is AfterEnter of the old one, and the page shows it. |
| Tracker.SpinTracker.DeleteLast | script.js:152-156 | The new state is AfterDelete of the old one, and the page shows it. |
| Tracker.SpinTracker.ClearAll | script.js:145-149 | The new state is AfterClear of the old one, and the page shows the empty display. |

## Left out

- The DOM is not modelled. Element lookups, `textContent` writes, `join(', ')` formatting and the "None"/"N/A" strings are replaced by the `Display` and `Assessment` values.
- Event wiring (`addEventListener`, script.js:21-26 and 145, 152) is not modelled. Each handler is a method of `SpinTracker`.
- `parseInt` of the button text and of the section-size field is not modelled. The button gives a `Pocket`. The field is an integer parameter `sizeInput`, with 0 standing for an empty, unparsable or zero field, which `|| 17` replaces.
- Analysis.BuildSection, Analysis.Assess and Analysis.CalculateOptimalSection require a section-size input in 0..75. The code behaves differently outside that range, and the model does not cover it. A negative size gives a negative `halfSectionSize`, so the loop at script.js:75 runs zero times: the section is empty and the centre number is `undefined`. A size of 76 or more gives `halfSectionSize` of at least 38. JavaScript's `%` then yields a negative index when `optimalIndex + i + 37 < 0`, which happens for the offsets `i` below `-37 - optimalIndex`, and the section gets `undefined` entries. Sizes 38..75 are covered, and their sections repeat pockets (Wheel.SectionRepeatsPastFullTurn).
- Tracker.SpinTracker.EnterNumber, Tracker.SpinTracker.DeleteLast, Tracker.SpinTracker.UpdateDisplay and Tracker.DisplayOf carry the same 0..75 requirement whenever the redraw builds a section (15 or more spins).
- Floating point is not modelled. The hit percentage is an exact real. Division by zero cannot occur, because a section is only built for 15 spins.
- `lastDirection` (script.js:125, 138) is written but never read, so it is not modelled.
- The page's initial text comes from HTML that is not part of this model. The constructor starts from the empty display.
- Wheel.Position: its own contract says only that the place is below 37. The facts that the place holds the pocket and equals `indexOf` are the lemmas Wheel.PositionHolds and Wheel.PositionIsIndexOf. The proofs over the section geometry are stated for any 37-place layout that holds every pocket, and are applied to the European order.
