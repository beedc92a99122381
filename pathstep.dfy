/** Search nodes (PathStep.java): a step of a path, linked to the step before it. */
module PathSteps {
  import opened Wrappers
  import opened Positions
  import opened JavaInts

  /** Weight of the heuristic term in the f cost. */
  const H_WEIGHT: real := 1.5

  class PathStep {
    /** The step before this one; null for the start of a path. */
    const prevStep: PathStep?
    /** Where this step ends. */
    const toLngLat: LngLat
    /** Angle of the heading taken from the previous step; null for the start. */
    const stepDirectionAngle: Option<real>
    /** The target of the path this step belongs to. */
    const targetLngLat: LngLat
    /** Whether this step or one before it crosses the central-area boundary. */
    var caBoundaryCrossed: bool
    /** Clock reading when the step was generated. */
    const ticksSinceStartOfCalculation: int
    /** Number of moves from the start of the path to this step. */
    const stepsSinceStart: nat

    /** The parent chain is well formed: each link adds one step, and it ends at a start step. */
    ghost predicate Linked()
      decreases stepsSinceStart
    {
      if prevStep == null then stepsSinceStart == 0
      else prevStep.stepsSinceStart + 1 == stepsSinceStart && prevStep.Linked()
    }

    /** The start of a path: no previous step, no heading, nothing crossed yet. */
    constructor Start(startPoint: LngLat, targetLngLat: LngLat, ticksSinceStartOfCalculation: int)
      ensures prevStep == null && toLngLat == startPoint && this.targetLngLat == targetLngLat
      ensures stepDirectionAngle == None && !caBoundaryCrossed && stepsSinceStart == 0
      ensures this.ticksSinceStartOfCalculation == ticksSinceStartOfCalculation
      ensures Linked()
    {
      toLngLat := startPoint;
      this.targetLngLat := targetLngLat;
      this.ticksSinceStartOfCalculation := ticksSinceStartOfCalculation;
      prevStep := null;
      stepDirectionAngle := None;
      caBoundaryCrossed := false;
      stepsSinceStart := 0;
    }

    /** A step after `prevStep`: one more move, and the crossing flag inherited from it. */
    constructor Step(toLngLat: LngLat, prevStep: PathStep, stepDirectionAngle: Option<real>,
                     targetLngLat: LngLat, ticksSinceStartOfCalculation: int)
      ensures this.prevStep == prevStep && this.toLngLat == toLngLat
      ensures this.stepDirectionAngle == stepDirectionAngle && this.targetLngLat == targetLngLat
      ensures caBoundaryCrossed == prevStep.caBoundaryCrossed
      ensures stepsSinceStart == prevStep.stepsSinceStart + 1
      ensures this.ticksSinceStartOfCalculation == ticksSinceStartOfCalculation
      ensures Linked() <==> prevStep.Linked()
    {
      this.toLngLat := toLngLat;
      this.prevStep := prevStep;
      this.stepDirectionAngle := stepDirectionAngle;
      this.targetLngLat := targetLngLat;
      caBoundaryCrossed := prevStep.caBoundaryCrossed;
      stepsSinceStart := prevStep.stepsSinceStart + 1;
      this.ticksSinceStartOfCalculation := ticksSinceStartOfCalculation;
    }

    /**
     * `getFCost`: moves so far plus H_WEIGHT times the straight-line distance to the target
     * in units of MOVE_LENGTH (both written as literals, so that the solver sees constants).
     */
    function FCost(plat: Platform): real
    {
      stepsSinceStart as real + 1.5 * (DistanceTo(toLngLat, targetLngLat, plat) / 0.00015)
    }

    /** `setCaBoundaryCrossed`: the only field that ever changes after construction. */
    method SetCaBoundaryCrossed(caBoundaryCrossed: bool)
      modifies this`caBoundaryCrossed
      ensures this.caBoundaryCrossed == caBoundaryCrossed
    {
      this.caBoundaryCrossed := caBoundaryCrossed;
    }

    /** `equals`: same position reached for the same target, whatever the path taken. */
    predicate Equals(o: PathStep?)
      ensures Equals(o) <==> o != null && toLngLat == o.toLngLat && targetLngLat == o.targetLngLat
    {
      this == o || (o != null && toLngLat == o.toLngLat && targetLngLat == o.targetLngLat)
    }

    /** `hashCode`: `Objects.hash(toLngLat, targetLngLat)` given the records' own hash codes. */
    function HashCode(lngLatHash: LngLat -> int): int
    {
      Wrap32(31 * (31 + lngLatHash(toLngLat)) + lngLatHash(targetLngLat))
    }

    /** The start step this chain leads back to. */
    ghost function Root(): (r: PathStep)
      requires Linked()
      ensures r.prevStep == null && r.stepsSinceStart == 0 && r.Linked()
      decreases stepsSinceStart
    {
      if prevStep == null then this else prevStep.Root()
    }

    /**
     * The steps from the start's child up to this one, in order: what following
     * `prevStep` links visits, reversed, without the start step.
     */
    ghost function Trail(): (t: seq<PathStep>)
      requires Linked()
      ensures |t| == stepsSinceStart
      ensures |t| > 0 ==> t[|t| - 1] == this && t[0].prevStep == Root()
      ensures forall i :: 0 <= i < |t| ==> t[i].stepsSinceStart == i + 1 && t[i].Linked() && t[i].Root() == Root()
      ensures forall i :: 0 < i < |t| ==> t[i].prevStep == t[i - 1]
      decreases stepsSinceStart
    {
      if prevStep == null then [] else prevStep.Trail() + [this]
    }
  }

  /** A step standing on its target costs exactly its step count. */
  lemma FCostOnTarget(s: PathStep, plat: Platform)
    requires ExactRoots(plat) && s.toLngLat == s.targetLngLat
    ensures s.FCost(plat) == s.stepsSinceStart as real
  {
    DistanceToSelf(s.toLngLat, plat);
  }

  /** The heuristic is never negative, so f is at least the step count. */
  lemma FCostAtLeastSteps(s: PathStep, plat: Platform)
    requires ExactRoots(plat)
    ensures s.FCost(plat) >= s.stepsSinceStart as real
  {
    DistanceIsRootOfEuclidSq(s.toLngLat, s.targetLngLat, plat);
  }

  /** Equal steps have equal hash codes, as `equals`/`hashCode` must agree. */
  lemma EqualStepsHashAlike(a: PathStep, b: PathStep, lngLatHash: LngLat -> int)
    requires a.Equals(b)
    ensures a.HashCode(lngLatHash) == b.HashCode(lngLatHash)
  {
  }

  /** Equality ignores the parent, step count, heading, clock and crossing flag. */
  lemma EqualsIgnoresHistory(a: PathStep, b: PathStep)
    requires a.toLngLat == b.toLngLat && a.targetLngLat == b.targetLngLat
    ensures a.Equals(b) && b.Equals(a)
  {
  }

  /** Following `prevStep` from a step reaches the start in exactly `stepsSinceStart` hops. */
  lemma {:induction false} HopsToRoot(s: PathStep, k: nat)
    requires s.Linked() && k <= s.stepsSinceStart
    ensures Ancestor(s, k).stepsSinceStart == s.stepsSinceStart - k
    ensures Ancestor(s, k).prevStep == null <==> k == s.stepsSinceStart
    decreases k
  {
    if k > 0 {
      HopsToRoot(s.prevStep, k - 1);
    }
  }

  /** The step reached after `k` hops along `prevStep`. */
  ghost function Ancestor(s: PathStep, k: nat): (a: PathStep)
    requires s.Linked() && k <= s.stepsSinceStart
    ensures a.Linked()
    decreases k
  {
    if k == 0 then s else Ancestor(s.prevStep, k - 1)
  }
}
