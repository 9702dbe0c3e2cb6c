/** The shape index of `showNextShape` in script.js: after each shape's
    duration the index is incremented and reduced modulo the number of shapes. */
module ShapeCycle {

  /** `currentShapeIndex++` followed by `% shapes.length`. */
  function NextShapeIndex(index: nat, shapeCount: nat): (r: nat)
    requires 0 < shapeCount
    ensures r < shapeCount
    ensures index < shapeCount ==> r == (if index + 1 == shapeCount then 0 else index + 1)
  {
    (index + 1) % shapeCount
  }

  /** The index after `steps` advances. */
  function AdvancedBy(index: nat, steps: nat, shapeCount: nat): nat
    requires 0 < shapeCount
  {
    if steps == 0 then index else NextShapeIndex(AdvancedBy(index, steps - 1, shapeCount), shapeCount)
  }

  /** Within one cycle, advancing `steps` times from a valid index counts up
      and wraps around to 0 once past the last shape. */
  lemma {:induction false} AdvancedByWithinCycle(index: nat, steps: nat, shapeCount: nat)
    requires index < shapeCount && steps <= shapeCount
    ensures AdvancedBy(index, steps, shapeCount) ==
              if index + steps < shapeCount then index + steps else index + steps - shapeCount
  {
    if steps > 0 {
      AdvancedByWithinCycle(index, steps - 1, shapeCount);
    }
  }

  /** Advancing `a + b` times is advancing `a` times, then `b` times. */
  lemma {:induction false} AdvancedByCompose(index: nat, a: nat, b: nat, shapeCount: nat)
    requires 0 < shapeCount
    ensures AdvancedBy(index, a + b, shapeCount) ==
              AdvancedBy(AdvancedBy(index, a, shapeCount), b, shapeCount)
  {
    if b > 0 {
      AdvancedByCompose(index, a, b - 1, shapeCount);
    }
  }

  /** The sequence of shapes is periodic: after as many advances as there are
      shapes, the sequence repeats. */
  lemma AdvancedByPeriodic(index: nat, steps: nat, shapeCount: nat)
    requires index < shapeCount
    ensures AdvancedBy(index, shapeCount, shapeCount) == index
    ensures AdvancedBy(index, shapeCount + steps, shapeCount) == AdvancedBy(index, steps, shapeCount)
  {
    AdvancedByWithinCycle(index, shapeCount, shapeCount);
    AdvancedByCompose(index, shapeCount, steps, shapeCount);
  }

  /** Every shape is shown within one cycle, whichever shape is current. */
  lemma AdvancedByVisitsAll(index: nat, other: nat, shapeCount: nat)
    requires index < shapeCount && other < shapeCount
    ensures exists steps: nat :: steps < shapeCount && AdvancedBy(index, steps, shapeCount) == other
  {
    var steps := if index <= other then other - index else other + shapeCount - index;
    AdvancedByWithinCycle(index, steps, shapeCount);
  }
}
