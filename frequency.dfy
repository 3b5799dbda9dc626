/**
 * The frequency tally of the recent window and the choice of its most frequent
 * pocket (script.js lines 59-66): a plain object counting each pocket, whose keys
 * Object.keys lists in ascending numeric order (they are all integer-like), folded by
 * a reduce that keeps the running winner only while its count is strictly greater.
 */
module Frequency {
  import opened Wheel

  predicate StrictlyIncreasing(s: seq<int>)
  {
    forall i, j :: 0 <= i < j < |s| ==> s[i] < s[j]
  }

  /** The count a tally holds for pocket x: `freq[x] || 0`. */
  function CountOf(t: map<Pocket, nat>, x: Pocket): nat
  {
    if x in t then t[x] else 0
  }

  /** numberFrequency: the window folded left to right, adding one to the pocket's count each time. */
  function Tally(w: seq<Pocket>): (t: map<Pocket, nat>)
    ensures forall x :: x in t <==> x in w
    ensures forall x :: x in t ==> t[x] == multiset(w)[x]
    decreases |w|
  {
    if w == [] then map[]
    else
      var init := w[..|w| - 1];
      var x := w[|w| - 1];
      assert w == init + [x];
      var t := Tally(init);
      t[x := CountOf(t, x) + 1]
  }

  /** Object.keys(numberFrequency) from pocket lo upwards: the counted pockets in ascending order. */
  function KeysFrom(t: map<Pocket, nat>, lo: nat): (ks: seq<Pocket>)
    requires lo <= 37
    ensures forall k :: k in ks <==> k in t && lo <= k
    ensures StrictlyIncreasing(ks)
    decreases 37 - lo
  {
    if lo == 37 then []
    else
      var p: Pocket := lo;
      var rest := KeysFrom(t, lo + 1);
      assert forall j :: 0 <= j < |rest| ==> rest[j] in rest;
      assert forall j :: 0 <= j < |rest| ==> p < rest[j];
      if p in t then [p] + rest else rest
  }

  /**
   * `keys.reduce((a, b) => freq[a] > freq[b] ? a : b)` with a the running winner and
   * rest the keys still to visit: the winner ends with the largest count, and since the
   * keys ascend and an equal count hands the lead to the later key, the largest pocket
   * among those with that count.
   */
  function PickFrequent(t: map<Pocket, nat>, a: Pocket, rest: seq<Pocket>): (r: Pocket)
    requires a in t && forall k :: k in rest ==> k in t
    requires StrictlyIncreasing([a] + rest)
    ensures r == a || r in rest
    ensures r in t && t[a] <= t[r] && forall k :: k in rest ==> t[k] <= t[r]
    ensures t[a] == t[r] ==> a <= r
    ensures forall k :: k in rest && t[k] == t[r] ==> k <= r
    decreases |rest|
  {
    if rest == [] then a
    else
      var b := rest[0];
      var lead := if t[a] > t[b] then a else b;
      assert [a] + rest == [a, b] + rest[1..];
      assert forall k :: k in rest <==> k == b || k in rest[1..];
      var s := [a] + rest;
      assert s[0] == a && s[1] == b;
      assert a < b;
      assert StrictlyIncreasing([lead] + rest[1..]) by {
        var u := [lead] + rest[1..];
        forall i, j | 0 <= i < j < |u| ensures u[i] < u[j] {
          assert u[j] == s[j + 1];
          if i == 0 {
            assert s[0] < s[j + 1] && s[1] <= s[j + 1];
          } else {
            assert u[i] == s[i + 1];
          }
        }
      }
      PickFrequent(t, lead, rest[1..])
  }

  lemma FirstSpinIsAKey(w: seq<Pocket>)
    requires |w| > 0
    ensures w[0] in KeysFrom(Tally(w), 0)
  {
  }

  /**
   * The pocket the tracker centres its section on: it occurs in the window, no pocket
   * occurs more often, and among the pockets that occur as often it is the largest.
   */
  function MostFrequent(w: seq<Pocket>): (r: Pocket)
    requires |w| > 0
    ensures r in w
    ensures forall x :: x in w ==> multiset(w)[x] <= multiset(w)[r]
    ensures forall x :: x in w && multiset(w)[x] == multiset(w)[r] ==> x <= r
  {
    var t := Tally(w);
    var ks := KeysFrom(t, 0);
    FirstSpinIsAKey(w);
    assert ks == [ks[0]] + ks[1..];
    PickFrequent(t, ks[0], ks[1..])
  }

  /** The counts a tally holds for the pockets lo..36, added up. */
  function CountsFrom(t: map<Pocket, nat>, lo: nat): nat
    requires lo <= 37
    decreases 37 - lo
  {
    if lo == 37 then 0 else CountOf(t, lo) + CountsFrom(t, lo + 1)
  }

  lemma {:induction false} CountsFromEmpty(lo: nat)
    requires lo <= 37
    ensures CountsFrom(map[], lo) == 0
    decreases 37 - lo
  {
    if lo < 37 {
      CountsFromEmpty(lo + 1);
    }
  }

  lemma {:induction false} CountsFromBump(t: map<Pocket, nat>, x: Pocket, lo: nat)
    requires lo <= 37
    ensures CountsFrom(t[x := CountOf(t, x) + 1], lo) == CountsFrom(t, lo) + (if lo <= x then 1 else 0)
    decreases 37 - lo
  {
    if lo < 37 {
      CountsFromBump(t, x, lo + 1);
    }
  }

  /** The tally's counts add up to the length of the window: every spin is counted once. */
  lemma {:induction false} TallyCountsEverySpin(w: seq<Pocket>)
    ensures CountsFrom(Tally(w), 0) == |w|
    decreases |w|
  {
    if w == [] {
      CountsFromEmpty(0);
    } else {
      var init := w[..|w| - 1];
      var x := w[|w| - 1];
      assert Tally(w) == Tally(init)[x := CountOf(Tally(init), x) + 1];
      TallyCountsEverySpin(init);
      CountsFromBump(Tally(init), x, 0);
      assert CountsFrom(Tally(w), 0) == |init| + 1;
    }
  }

  /** A run of spins that all show x counts x once per spin. */
  lemma {:induction false} RunCounts(run: seq<Pocket>, x: Pocket)
    requires forall y :: y in run ==> y == x
    ensures multiset(run)[x] == |run|
    ensures forall z :: z != x ==> multiset(run)[z] == 0
  {
    if run != [] {
      assert run[0] in run;
      assert run == [run[0]] + run[1..];
      forall y | y in run[1..] ensures y == x {
        assert y in run;
      }
      RunCounts(run[1..], x);
    }
  }

  /**
   * Seven fives, then seven 32s, then a zero: 5 and 32 tie, and the tie goes to 32, the
   * larger pocket, although 5 was seen first.
   */
  lemma TieGoesToLargerPocket(fives: seq<Pocket>, thirtyTwos: seq<Pocket>)
    requires |fives| == 7 && forall x :: x in fives ==> x == 5
    requires |thirtyTwos| == 7 && forall x :: x in thirtyTwos ==> x == 32
    ensures MostFrequent(fives + thirtyTwos + [0]) == 32
  {
    var w := fives + thirtyTwos + [0];
    RunCounts(fives, 5);
    RunCounts(thirtyTwos, 32);
    assert multiset(w) == multiset(fives) + multiset(thirtyTwos) + multiset{0};
    assert 32 in w by {
      assert thirtyTwos[0] in thirtyTwos;
      assert w[7] == thirtyTwos[0];
    }
    var r := MostFrequent(w);
    assert r in fives || r in thirtyTwos || r == 0;
  }
}
