/**
 * The rotating vision statements (src/components/landing/Vision.tsx): the
 * `currentIndex` advanced by a 6000 ms interval and set directly by the dots.
 * Interval firings are events.
 */
module VisionCarousel {

  datatype VisionQuote = VisionQuote(quote: string, author: string, role: string)

  const Visions: seq<VisionQuote> := [
    VisionQuote("We believe the best services come from people who know your neighborhood, your community, your needs.",
                "The Localli Team", "Building for communities"),
    VisionQuote("Every local business deserves a platform that treats them like a partner, not just another listing.",
                "Our Promise", "To service providers"),
    VisionQuote("When you book through Localli, you're not just getting a service — you're building a relationship.",
                "Our Vision", "For customers")]

  /** The interval's update: the next statement, wrapping after the last. */
  function Next(i: nat): (j: nat)
    ensures j < |Visions|
    ensures i + 1 < |Visions| ==> j == i + 1
    ensures i + 1 == |Visions| ==> j == 0
  {
    (i + 1) % |Visions|
  }

  /** Three interval ticks bring the carousel back to where it was. */
  lemma ThreeTicksReturn(i: nat)
    requires i < |Visions|
    ensures Next(Next(Next(i))) == i
  {
  }

  /** Whether each dot is drawn active for a given index. */
  function DotStates(index: nat): (dots: seq<bool>)
    ensures |dots| == |Visions|
  {
    seq(|Visions|, i => i == index)
  }

  function CountActive(dots: seq<bool>): nat {
    if dots == [] then 0 else (if dots[0] then 1 else 0) + CountActive(dots[1..])
  }

  /** For a valid index exactly one dot is active, the one at that index. */
  lemma {:induction false} ExactlyOneActiveDot(index: nat)
    requires index < |Visions|
    ensures DotStates(index)[index]
    ensures CountActive(DotStates(index)) == 1
  {
    var d := DotStates(index);
    assert d[1..][1..][1..] == [];
    assert CountActive(d[1..][1..]) == (if index == 2 then 1 else 0) + CountActive(d[1..][1..][1..]);
    assert CountActive(d[1..]) == (if index == 1 then 1 else 0) + CountActive(d[1..][1..]);
    assert CountActive(d) == (if index == 0 then 1 else 0) + CountActive(d[1..]);
  }

  class Vision {
    var currentIndex: nat

    /** The index always names one of the statements. */
    ghost predicate Valid()
      reads this
    {
      currentIndex < |Visions|
    }

    constructor ()
      ensures Valid() && currentIndex == 0
    {
      currentIndex := 0;
    }

    /** One firing of the rotation interval. */
    method Tick()
      requires Valid()
      modifies this
      ensures Valid()
      ensures currentIndex == Next(old(currentIndex))
    {
      currentIndex := (currentIndex + 1) % |Visions|;
    }

    /** A click on dot `i`; dots exist only for the statements' positions. */
    method SelectDot(i: nat)
      requires Valid() && i < |Visions|
      modifies this
      ensures Valid()
      ensures currentIndex == i
    {
      currentIndex := i;
    }

    /** The statement on screen: one of the three, the one whose dot is drawn active. */
    function Current(): (q: VisionQuote)
      requires Valid()
      reads this
      ensures q in Visions
      ensures forall i :: 0 <= i < |Visions| ==> (DotStates(currentIndex)[i] <==> Visions[i] == q)
    {
      Visions[currentIndex]
    }

    function Dots(): (dots: seq<bool>)
      requires Valid()
      reads this
      ensures |dots| == |Visions|
      ensures CountActive(dots) == 1 && dots[currentIndex]
    {
      ExactlyOneActiveDot(currentIndex);
      DotStates(currentIndex)
    }
  }

  /** Clicking a dot and then letting the interval fire shows the statement after the chosen one. */
  method SelectThenTick(i: nat) returns (shown: nat)
    requires i < |Visions|
    ensures shown == (i + 1) % 3
  {
    var v := new Vision();
    v.SelectDot(i);
    v.Tick();
    shown := v.currentIndex;
  }
}
