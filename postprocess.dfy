/**
 * Post-processing of the predictor's output (script.py, postprocess_prediction).
 *
 * The input is the prediction vector after rounding to integers: the first
 * MainCount entries become the main numbers, the next one the supplementary
 * ("powerball") number.
 */
module Postprocess {

  /** Main numbers lie in [MainMin, MainMax]. */
  const MainMin: int := 1
  const MainMax: int := 35
  /** Number of values in the main range. */
  const Span: int := MainMax - MainMin + 1
  /** The supplementary number lies in [SupplementaryMin, SupplementaryMax]. */
  const SupplementaryMin: int := 1
  const SupplementaryMax: int := 20
  /** Main numbers per draw; the supplementary number follows them in the vector. */
  const MainCount: nat := 7

  function Dist(x: int, y: int): nat {
    if x < y then y - x else x - y
  }

  /** numpy.clip on a single value: the point of [lo, hi] nearest to x. */
  function Clip(x: int, lo: int, hi: int): (r: int)
    requires lo <= hi
    ensures lo <= r <= hi
    ensures forall y :: lo <= y <= hi ==> Dist(x, r) <= Dist(x, y)
  {
    if x < lo then lo else if x > hi then hi else x
  }

  /** One turn of the probe loop: step up by one, wrapping from above MainMax to MainMin. */
  function Advance(num: int): int {
    if num + 1 > MainMax then MainMin else num + 1
  }

  /** The value the probe loop holds after k turns starting from `start`. */
  function Probe(start: int, k: nat): (r: int)
    requires MainMin <= start <= MainMax
    ensures MainMin <= r <= MainMax
    decreases k
  {
    if k == 0 then start else Advance(Probe(start, k - 1))
  }

  /** How many turns the probe loop needs to get from `start` to v. */
  function Gap(start: int, v: int): nat {
    (v - start) % Span
  }

  /** Counting k turns from `start` is addition modulo the size of the range. */
  lemma {:induction false} ProbeModular(start: int, k: nat)
    requires MainMin <= start <= MainMax
    ensures Probe(start, k) == (start - MainMin + k) % Span + MainMin
    decreases k
  {
    if k > 0 {
      ProbeModular(start, k - 1);
    }
  }

  /** Within one lap, the number of turns taken is the gap to the value reached. */
  lemma ProbeGap(start: int, k: nat)
    requires MainMin <= start <= MainMax && k < Span
    ensures Gap(start, Probe(start, k)) == k
  {
    ProbeModular(start, k);
    if start + k <= MainMax {
      assert Probe(start, k) == start + k;
    } else {
      assert Probe(start, k) == start + k - Span;
    }
  }

  /** The first Span probes visit Span different values. */
  lemma ProbeInjective(start: int, j: nat, k: nat)
    requires MainMin <= start <= MainMax
    requires j < k < Span
    ensures Probe(start, j) != Probe(start, k)
  {
    ProbeGap(start, j);
    ProbeGap(start, k);
  }

  /** When the first k probes all hit `used`, `used` holds at least k values. */
  lemma {:induction false} ProbedCount(start: int, used: set<int>, k: nat)
    requires MainMin <= start <= MainMax && k <= Span
    requires forall j :: 0 <= j < k ==> Probe(start, j) in used
    ensures k <= |used|
  {
    if k > 0 {
      var last := Probe(start, k - 1);
      var rest := used - {last};
      forall j | 0 <= j < k - 1
        ensures Probe(start, j) in rest
      {
        ProbeInjective(start, j, k - 1);
      }
      ProbedCount(start, rest, k - 1);
    }
  }

  /**
   * How many turns the probe loop takes from `start` once its first k
   * probes have all been found in `used`: the first later probe that is
   * free. Fewer than Span used values guarantee that one is found before
   * the range is exhausted.
   */
  function FreeStep(start: int, used: set<int>, k: nat): (i: nat)
    requires MainMin <= start <= MainMax && |used| < Span && k < Span
    requires forall j :: 0 <= j < k ==> Probe(start, j) in used
    ensures k <= i < Span && Probe(start, i) !in used
    ensures forall j :: k <= j < i ==> Probe(start, j) in used
    decreases Span - k
  {
    if Probe(start, k) !in used then k
    else
      ProbedCount(start, used, k + 1);
      FreeStep(start, used, k + 1)
  }

  /**
   * Collision resolution for one main number: a value in range that is not
   * in `used`, such that every value the probe passes on the way from
   * `start` to it is in `used` (so `start` itself when it is free).
   */
  function Resolve(start: int, used: set<int>): (r: int)
    requires MainMin <= start <= MainMax && |used| < Span
    ensures MainMin <= r <= MainMax && r !in used
    ensures forall j :: 0 <= j < Gap(start, r) ==> Probe(start, j) in used
    ensures start !in used ==> r == start
  {
    var i := FreeStep(start, used, 0);
    ProbeGap(start, i);
    Probe(start, i)
  }

  /** The values a sequence holds, as a set: the `used` set of the loop. */
  function Elements(s: seq<int>): set<int> {
    set x | x in s
  }

  /** Appending a value adds exactly that value to the set of values. */
  lemma ElementsAppend(s: seq<int>, x: int)
    ensures Elements(s + [x]) == Elements(s) + {x}
  {
    assert forall y :: y in s + [x] <==> y in s || y == x;
  }

  /** A sequence holds no more distinct values than it has elements. */
  lemma {:induction false} ElementsCard(s: seq<int>)
    ensures |Elements(s)| <= |s|
  {
    if s != [] {
      var init := s[..|s| - 1];
      assert s == init + [s[|s| - 1]];
      ElementsAppend(init, s[|s| - 1]);
      ElementsCard(init);
    }
  }

  /** The main numbers chosen for the first n positions of the prediction, one per position. */
  function MainNumbers(pred: seq<int>, n: nat): (main: seq<int>)
    requires n <= |pred| && n <= Span
    ensures |main| == n
    decreases n
  {
    if n == 0 then []
    else
      var prev := MainNumbers(pred, n - 1);
      ElementsCard(prev);
      prev + [Resolve(Clip(pred[n - 1], MainMin, MainMax), Elements(prev))]
  }

  /** One more position appends the resolved clipped value; fewer than Span values are taken before it. */
  lemma MainNumbersNext(pred: seq<int>, i: nat)
    requires i < |pred| && i < Span
    ensures |Elements(MainNumbers(pred, i))| < Span
    ensures MainNumbers(pred, i + 1) ==
            MainNumbers(pred, i) + [Resolve(Clip(pred[i], MainMin, MainMax), Elements(MainNumbers(pred, i)))]
  {
    ElementsCard(MainNumbers(pred, i));
  }

  /**
   * The main numbers are pairwise distinct and in [MainMin, MainMax] for
   * every input, however degenerate (all equal, all out of range).
   */
  lemma {:induction false} MainNumbersValid(pred: seq<int>, n: nat)
    requires n <= |pred| && n <= Span
    ensures forall i :: 0 <= i < n ==> MainMin <= MainNumbers(pred, n)[i] <= MainMax
    ensures forall i, j :: 0 <= i < j < n ==> MainNumbers(pred, n)[i] != MainNumbers(pred, n)[j]
    decreases n
  {
    if n > 0 {
      MainNumbersValid(pred, n - 1);
      MainNumbersNext(pred, n - 1);
      var prev := MainNumbers(pred, n - 1);
      var last := Resolve(Clip(pred[n - 1], MainMin, MainMax), Elements(prev));
      assert MainNumbers(pred, n) == prev + [last];
      assert last !in prev;
    }
  }

  /** Later positions never change the main numbers already chosen. */
  lemma {:induction false} MainNumbersPrefix(pred: seq<int>, i: nat, n: nat)
    requires i <= n <= |pred| && n <= Span
    ensures MainNumbers(pred, n)[..i] == MainNumbers(pred, i)
    decreases n
  {
    if i < n {
      MainNumbersPrefix(pred, i, n - 1);
      MainNumbersNext(pred, n - 1);
      assert MainNumbers(pred, n)[..n - 1] == MainNumbers(pred, n - 1);
    }
  }

  /**
   * Position i keeps its clipped prediction c when c is not among the
   * earlier main numbers; otherwise it holds the first value, stepping up
   * from c with wrap-around, that is not among them: every value passed on
   * the way is one of the earlier main numbers.
   */
  lemma MainNumberAt(pred: seq<int>, n: nat, i: nat)
    requires i < n <= |pred| && n <= Span
    ensures var main := MainNumbers(pred, n);
            var c := Clip(pred[i], MainMin, MainMax);
            && (c !in main[..i] ==> main[i] == c)
            && main[i] !in main[..i]
            && forall j :: 0 <= j < Gap(c, main[i]) ==> Probe(c, j) in main[..i]
  {
    MainNumbersPrefix(pred, i + 1, n);
    MainNumbersPrefix(pred, i, n);
    MainNumbersNext(pred, i);
    var main := MainNumbers(pred, n);
    assert main[i] == MainNumbers(pred, i + 1)[i];
    assert main[..i] == MainNumbers(pred, i);
  }

  /**
   * The collision loop of postprocess_prediction: steps `num` up by one,
   * wrapping from above MainMax to MainMin, until it is a value in range
   * that is not in `used`. With fewer than Span values in use it stops
   * within Span steps, on Resolve(num, used).
   */
  method FindFree(num: int, used: set<int>) returns (r: int)
    requires MainMin <= num <= MainMax && |used| < Span
    ensures r == Resolve(num, used)
  {
    r := num;
    ghost var k: nat := 0;
    while r in used || r < MainMin || r > MainMax
      invariant k < Span
      invariant r == Probe(num, k)
      invariant forall j :: 0 <= j < k ==> Probe(num, j) in used
      invariant FreeStep(num, used, k) == FreeStep(num, used, 0)
      decreases Span - k
    {
      r := r + 1;
      if r > MainMax {
        r := MainMin;
      }
      ProbedCount(num, used, k + 1);
      k := k + 1;
    }
  }

  /**
   * postprocess_prediction over the rounded vector: seven main numbers,
   * pairwise distinct and in [MainMin, MainMax], and the supplementary
   * number clipped to [SupplementaryMin, SupplementaryMax] on its own, without any
   * comparison against the main numbers.
   */
  method PostprocessPrediction(pred: seq<int>) returns (main: seq<int>, supplementary: int)
    requires |pred| > MainCount
    ensures main == MainNumbers(pred, MainCount)
    ensures |main| == MainCount
    ensures forall i :: 0 <= i < MainCount ==> MainMin <= main[i] <= MainMax
    ensures forall i, j :: 0 <= i < j < MainCount ==> main[i] != main[j]
    ensures SupplementaryMin <= supplementary <= SupplementaryMax
    ensures supplementary == Clip(pred[MainCount], SupplementaryMin, SupplementaryMax)
  {
    main := [];
    var used: set<int> := {};
    for i := 0 to MainCount
      invariant main == MainNumbers(pred, i)
      invariant |main| == i
      invariant used == Elements(main)
    {
      var num := Clip(pred[i], MainMin, MainMax);
      MainNumbersNext(pred, i);
      num := FindFree(num, used);
      ElementsAppend(main, num);
      main := main + [num];
      used := used + {num};
    }
    MainNumbersValid(pred, MainCount);
    supplementary := Clip(pred[MainCount], SupplementaryMin, SupplementaryMax);
  }
}
