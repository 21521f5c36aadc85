/**
 * The unresolved `RET`: how it is built, what it answers about the operand
 * stack and the local variables, and its replacement by a resolved `RET`.
 */
module JumpInstructions {
  import opened JavaLang
  import opened StackManipulation
  import opened ByteCodeInstructions

  /** The placeholder constructor: the location is kept, label and opcode are fixed. */
  function NewRetInstructionPlaceholder(
    className: string, methodName: string, lineNumber: Int32,
    methodDescriptor: string, instructionNumber: Int32): (p: RetInstructionPlaceholder)
    ensures p.Base().loc.className == className
    ensures p.Base().loc.methodName == methodName
    ensures p.Base().loc.lineNumber == lineNumber
    ensures p.Base().loc.methodDescriptor == methodDescriptor
    ensures p.Base().loc.instructionNumber == instructionNumber
    ensures p.Base().labelText == "RET" && p.Base().opcode == RET
  {
    RetInstructionPlaceholder(Location(className, methodName, lineNumber, methodDescriptor, instructionNumber))
  }

  /**
   * A placeholder pops nothing and pushes `VOID`, so whatever the operand
   * stack holds, it holds the same afterwards.
   */
  lemma PlaceholderHasNoStackEffect(p: RetInstructionPlaceholder, stack: seq<StackTypeSet>)
    ensures p.ConsumedFromStack() == []
    ensures p.PushedToStack() == VOID
    ensures Apply(stack, p.ConsumedFromStack(), p.PushedToStack()) == Some(stack)
  {
    assert Produced(VOID) == [];
    assert stack[..|stack|] + [] == stack;
  }

  /**
   * Seen as instructions, the resolved `RET` and the placeholder it replaces
   * sit at the same location, whatever the targets (the empty set included),
   * so the resolved one can take the placeholder's place.
   */
  lemma SetTargetsKeepsInstructionLocation(p: RetInstructionPlaceholder, targets: set<ByteCodeInstruction>)
    ensures Ret(p.SetTargets(targets)).Loc() == Placeholder(p).Loc()
    ensures Ret(p.SetTargets(targets)) != Placeholder(p)
  {
  }

  /**
   * The resolved `RET` is determined by the target set alone: two resolutions
   * of one placeholder are equal exactly when their target sets are.
   */
  lemma SetTargetsDeterminedByTargets(p: RetInstructionPlaceholder, t1: set<ByteCodeInstruction>, t2: set<ByteCodeInstruction>)
    ensures p.SetTargets(t1) == p.SetTargets(t2) <==> t1 == t2
  {
  }
}
