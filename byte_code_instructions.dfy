/**
 * The data model of decoded JVM instructions: where an instruction sits, its
 * label and opcode, and one datatype per instruction class of this model,
 * each with the queries that class answers.
 */
module ByteCodeInstructions {
  import opened JavaLang
  import opened StackManipulation

  /**
   * Opcodes, symbolically: `RET` and `ASTORE` (section 6.5 of The Java
   * Virtual Machine Specification) are the two this model fixes; any other
   * opcode is carried by its number. An `OtherOpcode` never stands for `RET`
   * or `ASTORE`, which have their own constructors.
   */
  datatype Opcode = RET | ASTORE | OtherOpcode(value: Int32)

  /** Where an instruction was decoded from. */
  datatype Location = Location(
    className: string,
    methodName: string,
    lineNumber: Int32,
    methodDescriptor: string,
    instructionNumber: Int32)

  /** The state every instruction hands to the common instruction base. */
  datatype InstructionBase = InstructionBase(loc: Location, labelText: string, opcode: Opcode)

  /** Any instruction of this model. */
  datatype ByteCodeInstruction =
    | Placeholder(placeholder: RetInstructionPlaceholder)
    | Ret(ret: RetInstruction)
    | Push(push: PushInstruction)
    | Store(store: StoreInstruction)
  {
    /** The location every instruction is created with. */
    function Loc(): Location {
      match this
      case Placeholder(p) => p.loc
      case Ret(r) => r.loc
      case Push(u) => u.base.loc
      case Store(s) => s.base.loc
    }
  }

  /** A `RET` whose successors are known: the set of instructions it may return to. */
  datatype RetInstruction = RetInstruction(loc: Location, targets: set<ByteCodeInstruction>)

  /** A store to local-variable slot `localVariableIndex` of a value of category `stackType`. */
  datatype StoreInstruction = StoreInstruction(base: InstructionBase, localVariableIndex: Int32, stackType: StackTypeSet)

  /**
   * A `RET` met during linear decoding, before the instructions it may return
   * to are known. It carries only its location; label and opcode are fixed.
   */
  datatype RetInstructionPlaceholder = RetInstructionPlaceholder(loc: Location)
  {
    /** What the placeholder hands to the instruction base: label `"RET"`, opcode `RET`. */
    function Base(): (b: InstructionBase)
      ensures b.loc == loc
      ensures b.labelText == "RET" && b.opcode == RET
    {
      InstructionBase(loc, "RET", RET)
    }

    /** The resolved `RET` at the same location, returning to exactly `targets`. */
    function SetTargets(targets: set<ByteCodeInstruction>): (r: RetInstruction)
      ensures r.loc == loc
      ensures r.targets == targets
    {
      RetInstruction(loc, targets)
    }

    /** A placeholder pops no operand. */
    function ConsumedFromStack(): (r: seq<StackTypeSet>)
      ensures |r| == 0
    {
      []
    }

    /** A placeholder leaves no value on the stack. */
    function PushedToStack(): (r: StackTypeSet)
      ensures Produced(r) == []
    {
      VOID
    }

    /** No slot is written, in agreement with `WritesVariables`. */
    function WritesVariable(localVariableIndex: Int32): (r: bool)
      ensures !r
      ensures r <==> localVariableIndex in WritesVariables()
    {
      false
    }

    /** A placeholder reads no slot. */
    function ReadsVariables(): (r: set<Int32>)
      ensures |r| == 0
    {
      {}
    }

    /** A placeholder writes no slot. */
    function WritesVariables(): (r: set<Int32>)
      ensures |r| == 0
    {
      {}
    }
  }

  /** An instruction that pushes one value, of the category given at construction. */
  datatype PushInstruction = PushInstruction(base: InstructionBase, pushedType: StackTypeSet)
  {
    /** A push pops no operand. */
    function ConsumedFromStack(): (r: seq<StackTypeSet>)
      ensures |r| == 0
    {
      []
    }

    /** The category recorded when the push was built. */
    function PushedToStack(): (r: StackTypeSet)
      ensures r == pushedType
    {
      pushedType
    }

    /** A push writes no slot. */
    function WritesVariable(index: Int32): (r: bool)
      ensures !r
    {
      false
    }
  }
}
