/** The game's die: a face count that cards may change, and the last value rolled. */
module Dice {
  /**
   * The value a roll produces.  `draw` stands for `Random.nextInt(numFaces)`,
   * which lies in [0, numFaces) whenever there is at least one face.
   */
  function RollValue(numFaces: int, draw: int): (v: int)
    requires numFaces >= 1 ==> 0 <= draw < numFaces
    ensures numFaces < 1 ==> v == 1
    ensures numFaces >= 1 ==> 1 <= v <= numFaces
  {
    if numFaces < 1 then 1 else draw + 1
  }

  /** Every face of a die with at least one face can come up. */
  lemma EveryFaceReachable(numFaces: int, face: int)
    requires 1 <= face <= numFaces
    ensures RollValue(numFaces, face - 1) == face
  {
  }

  class Die {
    var numFaces: int
    /** 0 until the first roll. */
    var value: int

    constructor (numFaces: int)
      ensures this.numFaces == numFaces && value == 0
    {
      this.numFaces := numFaces;
      value := 0;
    }

    /** Rolls the die; the face count is left alone. */
    method Roll(draw: int)
      requires numFaces >= 1 ==> 0 <= draw < numFaces
      modifies this`value
      ensures value == RollValue(numFaces, draw)
      ensures numFaces < 1 ==> value == 1
      ensures numFaces >= 1 ==> 1 <= value <= numFaces
    {
      if numFaces < 1 {
        value := 1;
      } else {
        value := draw + 1;
      }
    }

    /** Any face count is accepted; the last value stays until the next roll. */
    method SetNumFaces(numFaces: int)
      modifies this`numFaces
      ensures this.numFaces == numFaces
    {
      this.numFaces := numFaces;
    }
  }
}
