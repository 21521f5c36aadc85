/**
 * `ASTORE i`: the store of a reference into local-variable slot `i`. The
 * class only fixes, for the general store, the label `"ASTORE " + i`, the
 * category `AO` and the opcode `ASTORE`.
 */
module StoreInstructions {
  import opened JavaLang
  import opened StackManipulation
  import opened ByteCodeInstructions

  const AStoreLabelPrefix: string := "ASTORE "

  /** The label of `ASTORE` on slot `localVariableIndex`, as Java's string `+` builds it. */
  function AStoreLabel(localVariableIndex: Int32): (text: string)
    ensures |text| > |AStoreLabelPrefix|
    ensures text[..|AStoreLabelPrefix|] == AStoreLabelPrefix
    ensures text[|AStoreLabelPrefix|..] == IntToString(localVariableIndex)
  {
    AStoreLabelPrefix + IntToString(localVariableIndex)
  }

  /** The slot an `ASTORE` label names, or `None` for a label that is not one. */
  function AStoreLabelIndex(text: string): Option<int> {
    if |text| >= |AStoreLabelPrefix| && text[..|AStoreLabelPrefix|] == AStoreLabelPrefix
    then ParseInt(text[|AStoreLabelPrefix|..])
    else None
  }

  /** The `AStoreInstruction` constructor. */
  function NewAStoreInstruction(
    className: string, methodName: string, line: Int32, methodDescriptor: string,
    localVariableIndex: Int32, instructionNumber: Int32): (s: StoreInstruction)
    ensures s.base.loc == Location(className, methodName, line, methodDescriptor, instructionNumber)
    ensures s.localVariableIndex == localVariableIndex
    ensures s.stackType == AO
    ensures s.base.opcode == ASTORE
    ensures s.base.labelText == AStoreLabel(localVariableIndex)
    ensures AStoreLabelIndex(s.base.labelText) == Some(localVariableIndex as int)
  {
    AStoreLabelRecordsIndex(localVariableIndex);
    StoreInstruction(
      InstructionBase(Location(className, methodName, line, methodDescriptor, instructionNumber),
                      AStoreLabel(localVariableIndex), ASTORE),
      localVariableIndex, AO)
  }

  /** An `ASTORE` label names its slot: reading it back gives the slot index. */
  lemma AStoreLabelRecordsIndex(localVariableIndex: Int32)
    ensures AStoreLabelIndex(AStoreLabel(localVariableIndex)) == Some(localVariableIndex as int)
  {
    var text := AStoreLabel(localVariableIndex);
    assert text[|AStoreLabelPrefix|..] == IntToString(localVariableIndex);
    IntToStringRoundTrip(localVariableIndex);
  }

  /** Stores to different slots carry different labels. */
  lemma AStoreLabelsDistinct(i: Int32, j: Int32)
    ensures AStoreLabel(i) == AStoreLabel(j) <==> i == j
  {
    AStoreLabelRecordsIndex(i);
    AStoreLabelRecordsIndex(j);
  }

  /** A store that the `AStoreInstruction` constructor can have built. */
  predicate IsAStore(s: StoreInstruction) {
    s.base.opcode == ASTORE && s.stackType == AO && s.base.labelText == AStoreLabel(s.localVariableIndex)
  }

  /**
   * The constructor builds exactly the `ASTORE` stores: each of its results is
   * one, and each one is what the constructor builds from its own location and
   * slot. The caller chooses the location and the slot, never the category,
   * the opcode or the label.
   */
  lemma AStoreInstructionsAreExactlyConstructed(s: StoreInstruction)
    ensures IsAStore(s) <==>
      s == NewAStoreInstruction(s.base.loc.className, s.base.loc.methodName, s.base.loc.lineNumber,
                                s.base.loc.methodDescriptor, s.localVariableIndex, s.base.loc.instructionNumber)
  {
  }

  /** Every constructed `ASTORE` store satisfies `IsAStore`. */
  lemma NewAStoreInstructionIsAStore(
    className: string, methodName: string, line: Int32, methodDescriptor: string,
    localVariableIndex: Int32, instructionNumber: Int32)
    ensures IsAStore(NewAStoreInstruction(className, methodName, line, methodDescriptor, localVariableIndex, instructionNumber))
  {
  }
}
