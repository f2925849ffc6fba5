/** Stroke classification of an inline-4 engine: each cylinder's phase
    offset from the reference cylinder, `fmod` of the shifted crank angle by
    720, and the four half-open 180-degree ranges of the four-stroke cycle. */
module Strokes {
  import opened Cycle

  /** The four strokes of the cycle, in the order they follow each other. */
  datatype StrokePhase = Intake | Compression | Power | Exhaust

  /** The name the program shows for a stroke. */
  function Label(p: StrokePhase): (r: string)
    ensures r == "INTAKE" <==> p == Intake
    ensures r == "COMPRESSION" <==> p == Compression
    ensures r == "POWER/COMBUSTION" <==> p == Power
    ensures r == "EXHAUST" <==> p == Exhaust
  {
    match p
    case Intake => "INTAKE"
    case Compression => "COMPRESSION"
    case Power => "POWER/COMBUSTION"
    case Exhaust => "EXHAUST"
  }

  /** Different strokes carry different names, so comparing names (as the
      colour selection does) tells the strokes apart. */
  lemma LabelInjective(p: StrokePhase, q: StrokePhase)
    ensures Label(p) == Label(q) <==> p == q
  {
  }

  /** The stroke that follows `p`; exhaust is followed by the next intake. */
  function Next(p: StrokePhase): StrokePhase {
    match p
    case Intake => Compression
    case Compression => Power
    case Power => Exhaust
    case Exhaust => Intake
  }

  /** Number of cylinders of the engine. */
  const NumCylinders: nat := 4

  /** Cylinder indices (0-based) in the order 1-3-4-2 that the offset
      table's comment calls the firing order. The offsets are added to the
      crank angle, so the engine actually starts its power strokes in the
      reverse of this order (see `PowerStrokeOrder`). */
  const CommentedOrder: seq<int> := [0, 2, 3, 1]

  /** Degrees by which a cylinder's cycle is ahead of cylinder index 0:
      index 1 by 540, index 2 by 180, index 3 by 360, any other index by 0. */
  function PhaseOffset(cylinderIndex: int): (r: real)
    ensures 0.0 <= r < CycleDegrees
    ensures r == 0.0 <==> !(1 <= cylinderIndex <= 3)
  {
    if cylinderIndex == 1 then 540.0
    else if cylinderIndex == 2 then 180.0
    else if cylinderIndex == 3 then 360.0
    else 0.0
  }

  /** Along the commented order the offsets grow in steps of 180 degrees, so
      the four cylinders cover the cycle evenly, and there are four distinct
      offsets. */
  lemma OffsetsAlongCommentedOrder()
    ensures |CommentedOrder| == NumCylinders
    ensures forall k :: 0 <= k < |CommentedOrder| ==>
      PhaseOffset(CommentedOrder[k]) == 180.0 * k as real
  {
  }

  /** The range lookup on an effective angle. Every value not in [0, 540)
      falls through to exhaust, negative remainders of `fmod` included. */
  function Classify(effective: real): (p: StrokePhase)
    ensures p == Intake <==> 0.0 <= effective < 180.0
    ensures p == Compression <==> 180.0 <= effective < 360.0
    ensures p == Power <==> 360.0 <= effective < 540.0
    ensures p == Exhaust <==> effective < 0.0 || 540.0 <= effective
  {
    if 0.0 <= effective < 180.0 then Intake
    else if 180.0 <= effective < 360.0 then Compression
    else if 360.0 <= effective < 540.0 then Power
    else Exhaust
  }

  /** A boundary value belongs to the later stroke. */
  lemma ClassifyBoundaries()
    ensures Classify(0.0) == Intake && Classify(179.999) == Intake
    ensures Classify(180.0) == Compression && Classify(359.999) == Compression
    ensures Classify(360.0) == Power && Classify(539.999) == Power
    ensures Classify(540.0) == Exhaust && Classify(719.999) == Exhaust
  {
  }

  /** The effective angle of a cylinder: the crank angle moved by the
      cylinder's offset, reduced by `fmod` 720. */
  function EffectiveAngle(crankAngle: real, cylinderIndex: int): (r: real)
    ensures 0.0 <= crankAngle ==> InCycle(r)
    ensures IsWholeCycles(crankAngle + PhaseOffset(cylinderIndex) - r)
  {
    Fmod720(crankAngle + PhaseOffset(cylinderIndex))
  }

  /** The stroke a cylinder is in at the given crank angle. For a crank
      angle in the cycle it is the range of the shifted angle wrapped by
      one subtraction of 720; a shifted angle less than a cycle below 0 is
      exhaust. */
  function Stroke(crankAngle: real, cylinderIndex: int): (p: StrokePhase)
    ensures InCycle(crankAngle) ==> p == Classify(Step(crankAngle, PhaseOffset(cylinderIndex)))
    ensures -CycleDegrees < crankAngle + PhaseOffset(cylinderIndex) < 0.0 ==> p == Exhaust
  {
    var x := crankAngle + PhaseOffset(cylinderIndex);
    assert InCycle(crankAngle) ==> Step(crankAngle, PhaseOffset(cylinderIndex)) == Fmod720(x) by {
      if InCycle(crankAngle) {
        StepIsFmod(crankAngle, PhaseOffset(cylinderIndex));
      }
    }
    assert -CycleDegrees < x < 0.0 ==> Fmod720(x) == x by {
      if -CycleDegrees < x < 0.0 {
        assert IsWholeCycles(x - x);
        FmodUnique(x, x);
      }
    }
    Classify(EffectiveAngle(crankAngle, cylinderIndex))
  }

  /** A cylinder's stroke is the stroke of cylinder index 0 its offset
      further on. */
  lemma StrokeIsShiftedReference(crankAngle: real, cylinderIndex: int)
    ensures Stroke(crankAngle, cylinderIndex)
         == Stroke(crankAngle + PhaseOffset(cylinderIndex), 0)
  {
  }

  /** For a crank angle in the cycle, cylinder index 0 reports the range the
      crank angle itself lies in. */
  lemma ReferenceCylinderStroke(crankAngle: real)
    requires InCycle(crankAngle)
    ensures Stroke(crankAngle, 0) == Classify(crankAngle)
  {
    FmodOfInCycle(crankAngle);
  }

  /** Every 180 degrees of crank advance every cylinder moves on to the next
      stroke: intake, compression, power, exhaust, intake again. */
  lemma StrokeAdvances(crankAngle: real, cylinderIndex: int)
    requires 0.0 <= crankAngle
    ensures Stroke(crankAngle + 180.0, cylinderIndex) == Next(Stroke(crankAngle, cylinderIndex))
  {
    var x := crankAngle + PhaseOffset(cylinderIndex);
    assert crankAngle + 180.0 + PhaseOffset(cylinderIndex) == x + 180.0;
    FmodShift(x, 180.0);
  }

  /** The stroke pattern repeats every 720 degrees. */
  lemma StrokePeriodic(crankAngle: real, cylinderIndex: int)
    requires 0.0 <= crankAngle
    ensures Stroke(crankAngle + CycleDegrees, cylinderIndex) == Stroke(crankAngle, cylinderIndex)
  {
    var x := crankAngle + PhaseOffset(cylinderIndex);
    assert crankAngle + CycleDegrees + PhaseOffset(cylinderIndex) == x + CycleDegrees;
    FmodPeriodic(x);
  }

  /** At any crank angle the engine reaches, the four cylinders are in four
      different strokes, so every stroke is under way in exactly one
      cylinder: along the firing order each cylinder is one stroke ahead of
      the one before it. */
  lemma OneCylinderPerStroke(crankAngle: real)
    requires 0.0 <= crankAngle
    ensures forall i, j :: 0 <= i < j < NumCylinders ==> Stroke(crankAngle, i) != Stroke(crankAngle, j)
    ensures {Stroke(crankAngle, 0), Stroke(crankAngle, 1), Stroke(crankAngle, 2), Stroke(crankAngle, 3)}
         == {Intake, Compression, Power, Exhaust}
  {
    var s0 := Stroke(crankAngle, 0);
    StrokeIsShiftedReference(crankAngle, 2);
    StrokeAdvances(crankAngle, 0);
    StrokeIsShiftedReference(crankAngle, 3);
    StrokeAdvances(crankAngle + 180.0, 0);
    assert crankAngle + 180.0 + 180.0 == crankAngle + 360.0;
    StrokeIsShiftedReference(crankAngle, 1);
    StrokeAdvances(crankAngle + 360.0, 0);
    assert crankAngle + 360.0 + 180.0 == crankAngle + 540.0;
    assert Stroke(crankAngle, 2) == Next(s0);
    assert Stroke(crankAngle, 3) == Next(Next(s0));
    assert Stroke(crankAngle, 1) == Next(Next(Next(s0)));
  }

  /** Four strokes that together make up all four phases are pairwise
      different and include every phase. */
  lemma FourDistinct(strokes: seq<StrokePhase>)
    requires |strokes| == NumCylinders
    requires {strokes[0], strokes[1], strokes[2], strokes[3]} == {Intake, Compression, Power, Exhaust}
    ensures forall i, j :: 0 <= i < j < NumCylinders ==> strokes[i] != strokes[j]
    ensures forall p: StrokePhase :: p in strokes
  {
    forall p: StrokePhase
      ensures p in strokes
    {
      assert p.Intake? || p.Compression? || p.Power? || p.Exhaust?;
      assert p in {strokes[0], strokes[1], strokes[2], strokes[3]};
    }
  }

  /** At a non-negative crank angle the strokes of all cylinders, listed
      in cylinder order, hold every stroke exactly once. */
  lemma EveryStrokeOnce(crankAngle: real, strokes: seq<StrokePhase>)
    requires 0.0 <= crankAngle
    requires |strokes| == NumCylinders
    requires forall i :: 0 <= i < NumCylinders ==> strokes[i] == Stroke(crankAngle, i)
    ensures forall i, j :: 0 <= i < j < NumCylinders ==> strokes[i] != strokes[j]
    ensures forall p: StrokePhase :: p in strokes
  {
    OneCylinderPerStroke(crankAngle);
    assert strokes[0] == Stroke(crankAngle, 0) && strokes[1] == Stroke(crankAngle, 1);
    assert strokes[2] == Stroke(crankAngle, 2) && strokes[3] == Stroke(crankAngle, 3);
    FourDistinct(strokes);
  }

  /** At crank angle 0 cylinders 0, 1, 2 and 3 report intake, exhaust,
      compression and power. */
  lemma StrokesAtCrankZero()
    ensures Stroke(0.0, 0) == Intake
    ensures Stroke(0.0, 1) == Exhaust
    ensures Stroke(0.0, 2) == Compression
    ensures Stroke(0.0, 3) == Power
  {
    FmodOfInCycle(0.0);
    FmodOfInCycle(540.0);
    FmodOfInCycle(180.0);
    FmodOfInCycle(360.0);
  }

  /** The cylinder whose power stroke begins at crank angles 0, 180, 360 and
      540: indices 3, 2, 0, 1, that is cylinders 4, 3, 1, 2. */
  const PowerSequence: seq<int> := [3, 2, 0, 1]

  /** Power strokes begin every 180 degrees, one cylinder at a time, in the
      sequence 4-3-1-2 (cyclically 1-2-4-3), each cylinder's effective angle
      being exactly 360 at that moment. */
  lemma PowerStrokeOrder()
    ensures forall k :: 0 <= k < |PowerSequence| ==>
      EffectiveAngle(180.0 * k as real, PowerSequence[k]) == 360.0 &&
      Stroke(180.0 * k as real, PowerSequence[k]) == Power
  {
    FmodOfInCycle(360.0);
    assert 540.0 + 540.0 == 360.0 + CycleDegrees;
    FmodPeriodic(360.0);
  }

  /** A crank angle less than one cycle below the offset gives a negative
      remainder, which the lookup reports as exhaust whatever its size. */
  lemma NegativeEffectiveAngleIsExhaust(crankAngle: real, cylinderIndex: int)
    requires -CycleDegrees < crankAngle + PhaseOffset(cylinderIndex) < 0.0
    ensures EffectiveAngle(crankAngle, cylinderIndex) == crankAngle + PhaseOffset(cylinderIndex)
    ensures Stroke(crankAngle, cylinderIndex) == Exhaust
  {
    var x := crankAngle + PhaseOffset(cylinderIndex);
    assert IsWholeCycles(x - x);
    FmodUnique(x, x);
  }

  /** Without a step that wraps negative remainders forward, a negative
      angle is not classified as the same angle one cycle later: -500 gives
      exhaust, while 220 gives compression. */
  lemma NoForwardWrap()
    ensures Stroke(-500.0, 0) == Exhaust
    ensures Stroke(-500.0 + CycleDegrees, 0) == Compression
  {
    NegativeEffectiveAngleIsExhaust(-500.0, 0);
    FmodOfInCycle(220.0);
  }
}
