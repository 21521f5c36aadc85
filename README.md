# Bytecode instruction model (EvoSuite certainty transformation)

This project models the instruction objects that EvoSuite's method analyser
builds when it decodes a method's JVM bytecode. Each instruction tells the
analysis four things: which operand-stack categories it pops, which category
it pushes, and which local-variable slots it reads and writes. The model
covers three classes of that family:

- `RetInstructionPlaceholder`: the unresolved `RET` (section 6.5 of The Java
  Virtual Machine Specification, entry *ret*). It is created during linear
  decoding, before it is known where the subroutine may return to. It has no
  stack effect and no variable effect. `setTargets` turns it into a resolved
  `RetInstruction` at the same location, with the given target set.
- `PushInstruction`: the abstract push family. A push pops nothing, pushes
  the category fixed when it was built, and writes no local variable.
- `AStoreInstruction`: `ASTORE i` (same section, entry *astore*). It fixes
  the label `"ASTORE " + i`, the category `AO` (object or array reference)
  and the opcode `ASTORE`.

All three are immutable in the source. The model is therefore made of
datatypes and functions.

- `JavaLang` (`java_lang.dfy`): the 32-bit `int`, `Option`, and Java's
  decimal rendering of an `int` (what `"ASTORE " + i` appends), with a reader
  that inverts it.
- `StackManipulation` (`stack_manipulation.dfy`): `StackTypeSet`, and
  `Apply`. `Apply` gives the meaning of a stack effect on an abstract operand
  stack, so the stack queries can be stated as "what the instruction does
  to any stack".
- `ByteCodeInstructions` (`byte_code_instructions.dfy`): `Location`,
  `Opcode`, the instruction base, the datatypes of the modelled classes and
  their queries, and `ByteCodeInstruction`, the sum of all of them. This sum
  type is also the element type of a resolved `RET`'s target set.
- `JumpInstructions`, `PushInstructions`, `StoreInstructions`: the
  constructors of the three classes, and the properties proved about them.

## Model

| member | source | states |
|---|---|---|
| `ByteCodeInstructions.RetInstructionPlaceholder.Base` | client/src/main/java/org/evosuite/instrumentation/certaintyTransformation/MethodAnalyser/ByteCodeInstructions/JumpInstructions/RetInstructionPlaceholder.java:17 | what a placeholder hands to the instruction base: its own location, label `"RET"` and opcode `RET`, for every placeholder wherever it is |
| `ByteCodeInstructions.RetInstructionPlaceholder.SetTargets` | client/src/main/java/org/evosuite/instrumentation/certaintyTransformation/MethodAnalyser/ByteCodeInstructions/JumpInstructions/RetInstructionPlaceholder.java:20-22 | `setTargets` builds a resolved `RET` at the placeholder's location whose targets are exactly the given set, the empty set included; the placeholder itself is a value and is not changed |
| `ByteCodeInstructions.RetInstructionPlaceholder.ConsumedFromStack` | client/src/main/java/org/evosuite/instrumentation/certaintyTransformation/MethodAnalyser/ByteCodeInstructions/JumpInstructions/RetInstructionPlaceholder.java:24-27 | a placeholder pops no operand (on a stack: `PlaceholderHasNoStackEffect`) |
| `ByteCodeInstructions.RetInstructionPlaceholder.PushedToStack` | client/src/main/java/org/evosuite/instrumentation/certaintyTransformation/MethodAnalyser/ByteCodeInstructions/JumpInstructions/RetInstructionPlaceholder.java:29-32 | a placeholder leaves no value on the stack, so it reports `VOID` (on a stack: `PlaceholderHasNoStackEffect`) |
| `ByteCodeInstructions.RetInstructionPlaceholder.WritesVariable` | client/src/main/java/org/evosuite/instrumentation/certaintyTransformation/MethodAnalyser/ByteCodeInstructions/JumpInstructions/RetInstructionPlaceholder.java:34-37 | no slot is written, and the answer for each slot agrees with membership in `writesVariables()` |
| `ByteCodeInstructions.RetInstructionPlaceholder.ReadsVariables` | client/src/main/java/org/evosuite/instrumentation/certaintyTransformation/MethodAnalyser/ByteCodeInstructions/JumpInstructions/RetInstructionPlaceholder.java:38-41 | the read set is empty |
| `ByteCodeInstructions.RetInstructionPlaceholder.WritesVariables` | client/src/main/java/org/evosuite/instrumentation/certaintyTransformation/MethodAnalyser/ByteCodeInstructions/JumpInstructions/RetInstructionPlaceholder.java:42-45 | the write set is empty |
| `ByteCodeInstructions.PushInstruction.ConsumedFromStack` | client/src/main/java/org/evosuite/instrumentation/certaintyTransformation/MethodAnalyser/ByteCodeInstructions/PushInstructions/PushInstruction.java:18-21 | a push pops no operand (on a stack: `PushAddsPushedType`) |
| `ByteCodeInstructions.PushInstruction.PushedToStack` | client/src/main/java/org/evosuite/instrumentation/certaintyTransformation/MethodAnalyser/ByteCodeInstructions/PushInstructions/PushInstruction.java:23-26 | a push reports the category it was built with (`PushedTypeFixedAtConstruction`) |
| `ByteCodeInstructions.PushInstruction.WritesVariable` | client/src/main/java/org/evosuite/instrumentation/certaintyTransformation/MethodAnalyser/ByteCodeInstructions/PushInstructions/PushInstruction.java:28-31 | a push writes no slot, whichever is asked about |
| `JumpInstructions.NewRetInstructionPlaceholder` | client/src/main/java/org/evosuite/instrumentation/certaintyTransformation/MethodAnalyser/ByteCodeInstructions/JumpInstructions/RetInstructionPlaceholder.java:13-18 | the five location arguments reach the instruction base unchanged, and label and opcode are always `"RET"` and `RET` |
| `JumpInstructions.SetTargetsKeepsInstructionLocation` | client/src/main/java/org/evosuite/instrumentation/certaintyTransformation/MethodAnalyser/ByteCodeInstructions/JumpInstructions/RetInstructionPlaceholder.java:20-22 | as instructions, the resolved `RET` and the placeholder it replaces are distinct but sit at the same location, whatever the targets |
| `JumpInstructions.SetTargetsDeterminedByTargets` | client/src/main/java/org/evosuite/instrumentation/certaintyTransformation/MethodAnalyser/ByteCodeInstructions/JumpInstructions/RetInstructionPlaceholder.java:20-22 | two resolutions of one placeholder are equal if and only if their target sets are equal |
| `JumpInstructions.PlaceholderHasNoStackEffect` | client/src/main/java/org/evosuite/instrumentation/certaintyTransformation/MethodAnalyser/ByteCodeInstructions/JumpInstructions/RetInstructionPlaceholder.java:24-32 | a placeholder pops nothing and pushes `VOID`, so it leaves every operand stack as it was |
| `PushInstructions.NewPushInstruction` | client/src/main/java/org/evosuite/instrumentation/certaintyTransformation/MethodAnalyser/ByteCodeInstructions/PushInstructions/PushInstruction.java:12-16 | location, label and opcode reach the instruction base unchanged, and `pushedToStack()` reports the category given to the constructor |
| `PushInstructions.PushedTypeFixedAtConstruction` | client/src/main/java/org/evosuite/instrumentation/certaintyTransformation/MethodAnalyser/ByteCodeInstructions/PushInstructions/PushInstruction.java:10-16 | the reported category is the constructor's argument, and two pushes built from the same other arguments are equal exactly when their categories are |
| `PushInstructions.PushAddsPushedType` | client/src/main/java/org/evosuite/instrumentation/certaintyTransformation/MethodAnalyser/ByteCodeInstructions/PushInstructions/PushInstruction.java:18-26 | a push pops nothing. On any operand stack it keeps every element and adds exactly its pushed category on top (nothing for `VOID`) |
| `JavaLang.IntToString` | client/src/main/java/org/evosuite/instrumentation/certaintyTransformation/MethodAnalyser/ByteCodeInstructions/StoreInstructions/AStoreInstruction.java:10 | the rendering of an `int` is non-empty and starts with `-` exactly for negative values. After the sign come only digits, with no leading zero except for zero itself |
| `JavaLang.IntToStringRoundTrip` | client/src/main/java/org/evosuite/instrumentation/certaintyTransformation/MethodAnalyser/ByteCodeInstructions/StoreInstructions/AStoreInstruction.java:10 | reading back the rendering of any integer gives that integer |
| `JavaLang.IntToStringInjective` | client/src/main/java/org/evosuite/instrumentation/certaintyTransformation/MethodAnalyser/ByteCodeInstructions/StoreInstructions/AStoreInstruction.java:10 | two integers have the same rendering if and only if they are equal |
| `StoreInstructions.AStoreLabel` | client/src/main/java/org/evosuite/instrumentation/certaintyTransformation/MethodAnalyser/ByteCodeInstructions/StoreInstructions/AStoreInstruction.java:10 | the label is `"ASTORE "` followed by Java's decimal rendering of the slot |
| `StoreInstructions.NewAStoreInstruction` | client/src/main/java/org/evosuite/instrumentation/certaintyTransformation/MethodAnalyser/ByteCodeInstructions/StoreInstructions/AStoreInstruction.java:8-12 | location reaches the base unchanged. The slot index given is the one recorded, the category is `AO`, the opcode is `ASTORE`, and the label is `"ASTORE "` followed by the rendering of the slot, which reads back to the same slot |
| `StoreInstructions.AStoreLabelRecordsIndex` | client/src/main/java/org/evosuite/instrumentation/certaintyTransformation/MethodAnalyser/ByteCodeInstructions/StoreInstructions/AStoreInstruction.java:8-10 | reading the slot back from the label `"ASTORE " + i` gives `i`, for every `int` slot |
| `StoreInstructions.AStoreLabelsDistinct` | client/src/main/java/org/evosuite/instrumentation/certaintyTransformation/MethodAnalyser/ByteCodeInstructions/StoreInstructions/AStoreInstruction.java:10 | stores to two slots have the same label if and only if the slots are the same |
| `StoreInstructions.AStoreInstructionsAreExactlyConstructed` | client/src/main/java/org/evosuite/instrumentation/certaintyTransformation/MethodAnalyser/ByteCodeInstructions/StoreInstructions/AStoreInstruction.java:8-12 | a store has opcode `ASTORE`, category `AO` and label `"ASTORE " + i` exactly when the constructor builds it from its own location and slot. The caller chooses only the location and the slot |
| `StoreInstructions.NewAStoreInstructionIsAStore` | client/src/main/java/org/evosuite/instrumentation/certaintyTransformation/MethodAnalyser/ByteCodeInstructions/StoreInstructions/AStoreInstruction.java:10-11 | every constructed store has opcode `ASTORE`, category `AO` and the label of its own slot |

## Left out

- `StackTypeSet`, `ByteCodeInstruction`, `StoreInstruction` and `RetInstruction` are not part of this model. They appear only as data:
  - `StackTypeSet` has `VOID`, `AO`, and the other categories by name;
  - the instruction base is a location, a label and an opcode;
  - a store is a base, a slot and a category;
  - a resolved `RET` is a location and a target set.
- The queries of `StoreInstruction` and `RetInstruction` are not modelled, because their code is not part of this model. For the same reason, the push family's `readsVariables` and `writesVariables`, inherited from the base class, are not modelled either.
- The pass that computes each `RET`'s targets and puts the resolved instruction in the placeholder's place is not part of this model. Only the `setTargets` step is modelled.
- Opcodes are symbolic (`RET`, `ASTORE`, any other by number). The numeric values of ASM's `Opcodes` are not modelled.
- Object identity is not modelled. Instructions are values, so `setTargets` cannot change the placeholder, and two calls with the same set give equal results by construction.
- Equality of instructions is structural in the model. This applies to membership in a resolved `RET`'s `targets` too. The Java classes compare instructions with the `equals` and `hashCode` of the base class, which is not part of this model.
- `PushInstructions.PushedTypeFixedAtConstruction`: its "only if" half holds for model values only. Under a base-class `equals` that ignored the pushed category, two pushes built with different categories could be equal.
- `JumpInstructions.SetTargetsDeterminedByTargets`: its "only if" half holds for model values only. Under a base-class `equals` that compared only locations, two resolutions of one placeholder would be equal whatever their targets.
- Null arguments are outside the model. This covers `setTargets(null)` and a null `pushedType`.
- The numbers (line, instruction number, slot) are Java `int`s, so the model restricts them to 32 bits. No arithmetic is done on them.
- Java strings are UTF-16. The model uses Dafny strings, which makes no difference for the labels built here.
- `StackManipulation.Apply` does not check the categories of the popped operands against the stack, because the order of `consumedFromStack` is fixed in a class that is not part of this model.
