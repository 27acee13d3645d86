/**
 * Alternate-row pairing (script.py, section "Pares alternos").
 *
 * The cleaned rows are split by position: rows 0, 2, 4, ... are inputs and
 * rows 1, 3, 5, ... are targets, and both are cut to the shorter length, so
 * that input i is followed in the table by its target i.
 */
module Pairing {

  /** Every other element, starting with the first: Python's s[::2]. */
  function EveryOther<T>(s: seq<T>): (r: seq<T>)
    ensures |r| == (|s| + 1) / 2
    ensures forall i :: 0 <= i < |r| ==> r[i] == s[2 * i]
    decreases |s|
  {
    if |s| <= 1 then s else [s[0]] + EveryOther(s[2..])
  }

  /** Every other element, starting with the second: Python's s[1::2]. */
  function OddPositions<T>(s: seq<T>): (r: seq<T>)
    ensures |r| == |s| / 2
    ensures forall i :: 0 <= i < |r| ==> r[i] == s[2 * i + 1]
  {
    if s == [] then [] else EveryOther(s[1..])
  }

  /** Inputs and targets, of equal length. */
  datatype Pairs<T> = Pairs(inputs: seq<T>, targets: seq<T>)

  /** The pairing step: even rows, odd rows, both truncated to the shorter length. */
  function AlternatePairs<T>(rows: seq<T>): Pairs<T> {
    var xs := EveryOther(rows);
    var ys := OddPositions(rows);
    var m := if |xs| < |ys| then |xs| else |ys|;
    Pairs(xs[..m], ys[..m])
  }

  /**
   * For N rows there are floor(N / 2) pairs; pair i is row 2i followed by
   * row 2i + 1; with N odd the last row belongs to no pair.
   */
  lemma AlternatePairsShape<T>(rows: seq<T>)
    ensures |AlternatePairs(rows).inputs| == |rows| / 2
    ensures |AlternatePairs(rows).targets| == |rows| / 2
    ensures forall i :: 0 <= i < |rows| / 2 ==>
              AlternatePairs(rows).inputs[i] == rows[2 * i] &&
              AlternatePairs(rows).targets[i] == rows[2 * i + 1]
    ensures |rows| % 2 == 1 ==> 2 * |AlternatePairs(rows).inputs| == |rows| - 1
  {
  }
}
