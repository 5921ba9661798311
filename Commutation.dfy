/** The six-step commutation table of the BLDC controller: how a 3-bit Hall
    sensor code selects which of the three motor phases are energised.
    Everything here is constant and side-effect free. */
module Commutation {

  /** One row of the table: whether phase A, B and C are driven. */
  datatype Pattern = Pattern(a: bool, b: bool, c: bool)

  /** The row for the two electrically impossible codes: nothing driven. */
  const AllOff := Pattern(false, false, false)

  /** The constant eight-entry table, indexed by Hall code. */
  const CommutationTable: seq<Pattern> := [
    AllOff,                       // 0: invalid
    Pattern(true, false, false),  // 1
    Pattern(false, true, false),  // 2
    Pattern(true, true, false),   // 3
    Pattern(false, false, true),  // 4
    Pattern(true, false, true),   // 5
    Pattern(false, true, true),   // 6
    AllOff                        // 7: invalid
  ]

  /** The levels of the three Hall sensor inputs (HIGH is true). */
  datatype HallLevels = HallLevels(a: bool, b: bool, c: bool)

  function Bit(level: bool): nat {
    if level then 1 else 0
  }

  /** Codes 1 to 6 name a rotor sector; 0 and 7 mean a sensor fault. */
  predicate IsValidCode(code: nat) {
    1 <= code <= 6
  }

  /** Splits a 3-bit code back into the three sensor levels (bit 2 is A). */
  function DecodeHall(code: nat): HallLevels
    requires code < 8
  {
    HallLevels(code / 4 == 1, code / 2 % 2 == 1, code % 2 == 1)
  }

  /** The Hall code, sensor A most significant and sensor C least.
      Different sensor levels always give different codes. */
  function HallCode(h: HallLevels): (code: nat)
    ensures code < 8
    ensures DecodeHall(code) == h
  {
    4 * Bit(h.a) + 2 * Bit(h.b) + Bit(h.c)
  }

  /** Every 3-bit code is the code of some sensor levels. */
  lemma HallCodeOfDecode(code: nat)
    requires code < 8
    ensures HallCode(DecodeHall(code)) == code
  {
  }

  /** Number of phases a pattern drives. */
  function EnabledCount(p: Pattern): nat {
    Bit(p.a) + Bit(p.b) + Bit(p.c)
  }

  /** Number of phases on which two patterns disagree. */
  function PhaseChanges(p: Pattern, q: Pattern): nat {
    (if p.a != q.a then 1 else 0) + (if p.b != q.b then 1 else 0) + (if p.c != q.c then 1 else 0)
  }

  /** The Hall codes in the order the rotor passes through them. */
  const HallSequence: seq<nat> := [1, 3, 2, 6, 4, 5]

  lemma InvalidCodesAllOff()
    ensures |CommutationTable| == 8
    ensures CommutationTable[0] == AllOff && CommutationTable[7] == AllOff
  {
  }

  /** For a valid code, phase A, B, C is driven exactly when bit 0, 1, 2 of
      the code is set. */
  lemma PatternFollowsCodeBits(code: nat)
    requires IsValidCode(code)
    ensures CommutationTable[code] == Pattern(code % 2 == 1, code / 2 % 2 == 1, code / 4 == 1)
  {
  }

  /** As wired, phase A follows Hall sensor C and phase C follows sensor A:
      the table reads the code from its least significant bit while the code
      puts sensor A in its most significant bit. */
  lemma PatternFollowsSensors(h: HallLevels)
    requires IsValidCode(HallCode(h))
    ensures CommutationTable[HallCode(h)] == Pattern(h.c, h.b, h.a)
  {
  }

  /** The six valid codes give six different patterns, none of them all-off. */
  lemma ValidPatternsDistinct(i: nat, j: nat)
    requires IsValidCode(i) && IsValidCode(j)
    ensures CommutationTable[i] != AllOff
    ensures CommutationTable[i] == CommutationTable[j] <==> i == j
  {
  }

  /** A valid code drives one or two phases, never none and never all three. */
  lemma ValidPatternDrivesOneOrTwo(code: nat)
    requires IsValidCode(code)
    ensures 1 <= EnabledCount(CommutationTable[code]) <= 2
  {
  }

  /** The rotation sequence visits every valid code exactly once. */
  lemma HallSequenceCoversValidCodes()
    ensures |HallSequence| == 6
    ensures forall k :: 0 <= k < |HallSequence| ==> IsValidCode(HallSequence[k])
    ensures forall code :: IsValidCode(code) ==> code in HallSequence
    ensures forall k, l :: 0 <= k < l < |HallSequence| ==> HallSequence[k] != HallSequence[l]
  {
  }

  /** Moving one step along the rotation sequence, including the wrap from 5
      back to 1, changes exactly one phase. */
  lemma HallSequenceStepsOnePhase(k: nat)
    requires k < |HallSequence|
    ensures PhaseChanges(CommutationTable[HallSequence[k]],
                         CommutationTable[HallSequence[(k + 1) % |HallSequence|]]) == 1
  {
  }
}
