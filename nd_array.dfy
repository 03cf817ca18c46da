/**
 * The part of a two-dimensional ndarray that the storage layer observes:
 * its rows and its declared width. The width is kept apart from the rows
 * because an array with no rows still has one (`Array2::zeros((0, 3))`).
 */
module NdArray {

  datatype Array2 = Array2(rows: seq<seq<real>>, ncols: nat) {

    /** Every row has exactly `ncols` entries, as ndarray guarantees of its arrays. */
    ghost predicate Shaped() {
      forall r :: 0 <= r < |rows| ==> |rows[r]| == ncols
    }

    /** `len_of(Axis(0))`. */
    function NRows(): nat {
      |rows|
    }

    /** `dim()`: the pair (rows, columns). */
    function Dim(): (nat, nat) {
      (|rows|, ncols)
    }
  }

  /** `Array2::zeros((0, ncols))`: an array with no rows and the given width. */
  function Empty(ncols: nat): (a: Array2)
    ensures a.Shaped() && a.Dim() == (0, ncols)
  {
    Array2([], ncols)
  }
}
