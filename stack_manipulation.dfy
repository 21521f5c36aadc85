/**
 * Categories of operand-stack values and the meaning of an instruction's
 * stack effect on an abstract operand stack.
 */
module StackManipulation {
  import opened JavaLang

  /**
   * The category of one operand-stack slot. `VOID` is "no value" and `AO`
   * the category of object and array references; the remaining categories
   * of the type set are not part of this model and are kept by name only;
   * a `Category` never stands for `VOID` or `AO`, which have their own
   * constructors.
   */
  datatype StackTypeSet = VOID | AO | Category(name: string)

  /** What an instruction that pushes `pushed` leaves on the stack: nothing for `VOID`. */
  function Produced(pushed: StackTypeSet): (r: seq<StackTypeSet>)
    ensures |r| <= 1
    ensures r == [] <==> pushed == VOID
    ensures r != [] ==> r[0] == pushed
  {
    if pushed == VOID then [] else [pushed]
  }

  /**
   * The operand stack (bottom first) after an instruction that pops
   * `|consumed|` operands and then pushes `pushed`; `None` when the stack
   * holds fewer operands than the instruction pops.
   */
  function Apply(stack: seq<StackTypeSet>, consumed: seq<StackTypeSet>, pushed: StackTypeSet): (r: Option<seq<StackTypeSet>>)
    ensures r.None? <==> |stack| < |consumed|
    ensures r.Some? ==> |r.value| == |stack| - |consumed| + |Produced(pushed)|
    ensures r.Some? ==> r.value[..|stack| - |consumed|] == stack[..|stack| - |consumed|]
  {
    if |stack| < |consumed| then None
    else Some(stack[..|stack| - |consumed|] + Produced(pushed))
  }
}
