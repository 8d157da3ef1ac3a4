/**
 * A zone of the grid: a rectangle given by two corners, and the agents
 * that live in it, from which it derives its population and its mean
 * agreeableness.
 */
module Zones {
  import opened Builtins
  import opened Positions

  /**
   * An inhabitant. The source attaches whatever attributes its input
   * record carries; the zone only ever reads the agreeableness.
   */
  datatype Agent = Agent(position: Position, agreeableness: real)

  /** The agreeableness of each agent, in order: one value per agent. */
  function AgreeablenessOf(agents: seq<Agent>): (values: seq<real>)
    ensures |values| == |agents|
    ensures forall i :: 0 <= i < |agents| ==> values[i] == agents[i].agreeableness
  {
    seq(|agents|, i requires 0 <= i < |agents| => agents[i].agreeableness)
  }

  lemma AgreeablenessOfAppend(agents: seq<Agent>, a: Agent)
    ensures AgreeablenessOf(agents + [a]) == AgreeablenessOf(agents) + [a.agreeableness]
  {
  }

  class Zone {
    const corner1: Position
    const corner2: Position
    var inhabitants: seq<Agent>

    /** A new zone has its two corners and no inhabitant. */
    constructor (corner1: Position, corner2: Position)
      ensures this.corner1 == corner1 && this.corner2 == corner2
      ensures inhabitants == []
    {
      this.corner1 := corner1;
      this.corner2 := corner2;
      inhabitants := [];
    }

    /**
     * Whether the position lies in the zone. The source compares
     * radians; the answer is the same as comparing degrees for every
     * order-preserving conversion to radians, so the test is made on degrees.
     */
    function Contains(position: Position): (r: bool)
      ensures forall f :: StrictlyIncreasing(f) ==> (r <==> InBoxRadians(corner1, corner2, position, f))
    {
      RadiansAgreeWithDegrees(corner1, corner2, position);
      InBox(corner1, corner2, position)
    }

    /** The number of inhabitants; zero exactly when there are none. */
    function Population(): (n: nat)
      reads this
      ensures n == 0 <==> inhabitants == []
    {
      |inhabitants|
    }

    /**
     * The mean agreeableness of the inhabitants, and the neutral value 0
     * for a zone without inhabitants.
     */
    function AverageAgreeableness(): (average: real)
      reads this
      ensures inhabitants == [] ==> average == 0.0
      ensures average * Population() as real == Sum(AgreeablenessOf(inhabitants))
    {
      if inhabitants == [] then 0.0
      else Sum(AgreeablenessOf(inhabitants)) / Population() as real
    }

    /**
     * Appends one inhabitant, with no check for duplicates: the earlier
     * inhabitants stay as they were, the population grows by one and the
     * total agreeableness by the newcomer's.
     */
    method AddInhabitant(inhabitant: Agent)
      modifies this
      ensures inhabitants == old(inhabitants) + [inhabitant]
      ensures Population() == old(Population()) + 1
      ensures AverageAgreeableness() * Population() as real
           == old(AverageAgreeableness() * Population() as real) + inhabitant.agreeableness
    {
      AgreeablenessOfAppend(inhabitants, inhabitant);
      SumAppend(AgreeablenessOf(inhabitants), inhabitant.agreeableness);
      inhabitants := inhabitants + [inhabitant];
    }
  }

  /** The mean of a non-empty zone lies between the least and the greatest agreeableness. */
  lemma AverageWithinBounds(zone: Zone, lo: real, hi: real)
    requires zone.inhabitants != []
    requires forall a :: a in zone.inhabitants ==> lo <= a.agreeableness <= hi
    ensures lo <= zone.AverageAgreeableness() <= hi
  {
    var values := AgreeablenessOf(zone.inhabitants);
    assert |values| == zone.Population();
    assert forall i :: 0 <= i < |values| ==> lo <= values[i] <= hi by {
      forall i | 0 <= i < |values| ensures lo <= values[i] <= hi {
        assert zone.inhabitants[i] in zone.inhabitants;
      }
    }
    SumBounds(values, lo, hi);
    MeanWithinBounds(Sum(values), zone.AverageAgreeableness(), |values| as real, lo, hi);
  }

  /** The arithmetic step of AverageWithinBounds: dividing the bounds of a sum by a positive count. */
  lemma MeanWithinBounds(sum: real, mean: real, n: real, lo: real, hi: real)
    requires n > 0.0 && mean * n == sum
    requires lo * n <= sum <= hi * n
    ensures lo <= mean <= hi
  {
    assert (mean - lo) * n == sum - lo * n;
    assert (hi - mean) * n == hi * n - sum;
  }
}
