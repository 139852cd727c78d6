/**
 * The display toggles of the solution scene: the mesh and numbering modes
 * cycle through three states with a C++ remainder, the boundary and
 * control-point switches flip with a logical not on an int.
 */
module VsSolution {

  /**
   * C++ `a % 3`: the remainder of division rounded toward zero, so it takes
   * the sign of `a` (Dafny's own `%` never goes negative).
   */
  function CppRem3(a: int): (r: int)
    ensures -3 < r < 3 && (a - r) % 3 == 0
    ensures a >= 0 ==> r >= 0
    ensures a <= 0 ==> r <= 0
  {
    if a >= 0 then a % 3 else -((-a) % 3)
  }

  /** The remainder C++ computes is the only value with the properties CppRem3 promises. */
  lemma CppRem3Unique(a: int, r: int)
    requires -3 < r < 3 && (a - r) % 3 == 0
    requires a >= 0 ==> r >= 0
    requires a <= 0 ==> r <= 0
    ensures r == CppRem3(a)
  {
    var c := CppRem3(a);
    var q1, q2 := (a - r) / 3, (a - c) / 3;
    assert a - r == 3 * q1 && a - c == 3 * q2;
    assert c - r == 3 * (q1 - q2);
  }

  /** `(mode + 1) % 3` as the toggles compute it. */
  function NextMode(mode: int): (m: int)
    ensures mode >= -1 ==> 0 <= m < 3
  {
    CppRem3(mode + 1)
  }

  /** `!flag` on an int: 1 for 0, 0 for anything else. */
  function CNot(flag: int): (r: int)
    ensures r == 0 || r == 1
  {
    if flag == 0 then 1 else 0
  }

  /** From each of the three modes the toggle goes to the next one, and three toggles come back. */
  lemma NextModeCycle(mode: int)
    requires 0 <= mode < 3
    ensures 0 <= NextMode(mode) < 3
    ensures NextMode(mode) == if mode == 2 then 0 else mode + 1
    ensures NextMode(NextMode(NextMode(mode))) == mode
  {
  }

  /**
   * From any value of at least -1 the toggle lands on a valid mode; below
   * that the C++ remainder is negative unless mode + 1 is a multiple of 3.
   */
  lemma NextModeRange(mode: int)
    ensures mode >= -1 ==> 0 <= NextMode(mode) < 3
    ensures NextMode(mode) < 0 <==> mode < -1 && (mode + 1) % 3 != 0
    ensures -3 < NextMode(mode) < 3
  {
  }

  /** The flipped flag is 0 or 1, and flipping twice restores exactly the values 0 and 1. */
  lemma CNotFlag(flag: int)
    ensures CNot(flag) == 0 || CNot(flag) == 1
    ensures CNot(flag) == 1 <==> flag == 0
    ensures CNot(CNot(flag)) == flag <==> flag == 0 || flag == 1
  {
  }

  /** The toggle fields of VisualizationSceneSolution. */
  class VisualizationSceneSolution {
    var drawMesh: int
    var drawNums: int
    var drawBdr: int
    var drawCp: int
    /** How many times the control-point lines were rebuilt. */
    var cpPreparations: nat

    /** Every toggle holds one of its states. */
    predicate Valid()
      reads this
    {
      0 <= drawMesh < 3 && 0 <= drawNums < 3 && 0 <= drawBdr <= 1 && 0 <= drawCp <= 1
    }

    /** A scene whose toggles start in the given states, none of them rebuilt yet. */
    constructor (mesh: int, nums: int, bdr: int, cp: int)
      requires 0 <= mesh < 3 && 0 <= nums < 3 && 0 <= bdr <= 1 && 0 <= cp <= 1
      ensures Valid()
      ensures drawMesh == mesh && drawNums == nums && drawBdr == bdr && drawCp == cp
      ensures cpPreparations == 0
    {
      drawMesh, drawNums, drawBdr, drawCp := mesh, nums, bdr, cp;
      cpPreparations := 0;
    }

    method ToggleDrawBdr()
      modifies this`drawBdr
      ensures drawBdr == CNot(old(drawBdr))
      ensures old(Valid()) ==> Valid()
    {
      drawBdr := CNot(drawBdr);
    }

    method ToggleDrawMesh()
      modifies this`drawMesh
      ensures drawMesh == NextMode(old(drawMesh))
      ensures old(Valid()) ==> Valid()
    {
      NextModeRange(drawMesh);
      drawMesh := CppRem3(drawMesh + 1);
    }

    method ToggleDrawNumberings()
      modifies this`drawNums
      ensures drawNums == NextMode(old(drawNums))
      ensures old(Valid()) ==> Valid()
    {
      NextModeRange(drawNums);
      drawNums := CppRem3(drawNums + 1);
    }

    /** Flips the control-point switch and rebuilds the control-point lines once. */
    method ToggleDrawCP()
      modifies this`drawCp, this`cpPreparations
      ensures drawCp == CNot(old(drawCp)) && cpPreparations == old(cpPreparations) + 1
      ensures old(Valid()) ==> Valid()
    {
      drawCp := CNot(drawCp);
      cpPreparations := cpPreparations + 1;
    }
  }
}
