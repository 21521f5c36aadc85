/**
 * The push family: instructions that pop nothing, push one value of a
 * category fixed when they are built, and write no local variable.
 */
module PushInstructions {
  import opened JavaLang
  import opened StackManipulation
  import opened ByteCodeInstructions

  /**
   * The push constructor: location, label and opcode go unchanged to the
   * instruction base, and the pushed category is recorded.
   */
  function NewPushInstruction(
    className: string, methodName: string, lineNumber: Int32, methodDescriptor: string,
    labelText: string, instructionNumber: Int32, pushedType: StackTypeSet, opcode: Opcode): (u: PushInstruction)
    ensures u.base.loc == Location(className, methodName, lineNumber, methodDescriptor, instructionNumber)
    ensures u.base.labelText == labelText
    ensures u.base.opcode == opcode
    ensures u.PushedToStack() == pushedType
  {
    PushInstruction(InstructionBase(Location(className, methodName, lineNumber, methodDescriptor, instructionNumber), labelText, opcode), pushedType)
  }

  /**
   * Whatever the operand stack holds, a push removes nothing from it and adds
   * exactly the category it was built with (nothing, for `VOID`).
   */
  lemma PushAddsPushedType(u: PushInstruction, stack: seq<StackTypeSet>)
    ensures u.ConsumedFromStack() == []
    ensures Apply(stack, u.ConsumedFromStack(), u.PushedToStack()) == Some(stack + Produced(u.pushedType))
  {
    assert stack[..|stack|] == stack;
  }

  /**
   * The category a push reports is the one it was built with, and it is the
   * only thing that tells two otherwise equal pushes apart.
   */
  lemma PushedTypeFixedAtConstruction(
    className: string, methodName: string, lineNumber: Int32, methodDescriptor: string,
    labelText: string, instructionNumber: Int32, t1: StackTypeSet, t2: StackTypeSet, opcode: Opcode)
    ensures NewPushInstruction(className, methodName, lineNumber, methodDescriptor, labelText, instructionNumber, t1, opcode).PushedToStack() == t1
    ensures NewPushInstruction(className, methodName, lineNumber, methodDescriptor, labelText, instructionNumber, t1, opcode)
         == NewPushInstruction(className, methodName, lineNumber, methodDescriptor, labelText, instructionNumber, t2, opcode)
        <==> t1 == t2
  {
  }
}
