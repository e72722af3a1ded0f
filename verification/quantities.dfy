/** The ten measurements taken at every sample point of the cross-section, in
    the column order the exploded table uses: X, Y, Utot, Ux, Uy, SigxxE,
    SigyyE, EffNormalStress, TotNormalStress, TotShearStress.

    `Columns<T>` holds one T per measurement. A phase's query results are a
    `Columns<seq<V>>` (ten series), one sample point is a `Columns<V>`.
 */
module Quantities {

  datatype Columns<T> = Columns(
    x: T, y: T, utot: T, ux: T, uy: T,
    sigxxe: T, sigyye: T,
    effNormalStress: T, totNormalStress: T, totShearStress: T)

  /** Number of sample points of a set of series, read off the first one. */
  function Width<V>(s: Columns<seq<V>>): nat {
    |s.x|
  }

  /** All ten series have the same length. */
  predicate Uniform<V>(s: Columns<seq<V>>) {
    && |s.y| == |s.x| && |s.utot| == |s.x| && |s.ux| == |s.x| && |s.uy| == |s.x|
    && |s.sigxxe| == |s.x| && |s.sigyye| == |s.x|
    && |s.effNormalStress| == |s.x| && |s.totNormalStress| == |s.x|
    && |s.totShearStress| == |s.x|
  }

  /** Sample point i: element i of every series. */
  function At<V>(s: Columns<seq<V>>, i: nat): Columns<V>
    requires Uniform(s) && i < Width(s)
  {
    Columns(s.x[i], s.y[i], s.utot[i], s.ux[i], s.uy[i],
            s.sigxxe[i], s.sigyye[i],
            s.effNormalStress[i], s.totNormalStress[i], s.totShearStress[i])
  }

  /** The series without their first sample point. */
  function Tails<V>(s: Columns<seq<V>>): (r: Columns<seq<V>>)
    requires Uniform(s) && Width(s) > 0
    ensures Uniform(r) && Width(r) == Width(s) - 1
    ensures forall i :: 0 <= i < Width(r) ==> At(r, i) == At(s, i + 1)
  {
    Columns(s.x[1..], s.y[1..], s.utot[1..], s.ux[1..], s.uy[1..],
            s.sigxxe[1..], s.sigyye[1..],
            s.effNormalStress[1..], s.totNormalStress[1..], s.totShearStress[1..])
  }
}
