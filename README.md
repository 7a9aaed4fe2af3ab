# VMMethod: the compiled-method object of CSOM

This project models, in Dafny, the compiled-method heap object of the CSOM
Smalltalk virtual machine (`src/vmobjects/VMMethod.c`) and proves properties of it.

A VMMethod is one variable-length allocation. It holds:

- a header: signature, holder class, and boxed integers for the number of locals,
  the maximum stack depth, the bytecode length and the number of arguments;
- L pointer-sized literal slots inherited from VMArray (the literal pool);
- a raw region of B bytecode bytes placed right after the literal slots.

The model has these parts:

- `VMMethods.VMMethod` is a class with one field per header field. Unset boxed
  integers are `None`. The literal slots are a fixed-length `array<Option<VMObject>>`
  (NULL is `None`). The byte region is a separate fixed-length `array<uint8>`.
  `Valid()` says that the stored length equals the size of the byte region.
- `MethodLayout` places both trailing regions inside the one allocation with symbolic
  platform sizes. It proves that literal slots and bytecode bytes never overlap, and
  that the allocation VMMethod_new requests ends exactly at the last bytecode byte.
- `WritePolicy` states the two setter policies. Locals and arguments are write-once.
  The maximum stack depth is always overwritten. It also proves what a whole series of
  setter calls leaves behind: the first write wins, or the last write wins.
- `GcTrace` says which references a mark callback passes to the collector, in order.
- `Assembler.Assemble` is VMMethod_assemble, reading a generation context given as a value.
- `MethodVTable` is the lazily built, idempotent VMMethod capability table.
- `Scenarios` holds client methods. They check concrete uses against the contracts:
  locals set to 3 then 7 read back 3, and stack depth set to 4 then 9 reads back 9.
  Assembling literals `[foo, 42]` and bytes `01 00 02 01 FF` reproduces them, and
  `get_constant` resolves through the operand byte. A nested method in literal slot 2
  receives the holder. Byte index B trips the DEBUG guard.

Collaborators are inputs:

- The collector's answer to an allocation request is the function `gcAllocate`.
- The compiler's stack-depth analysis is the `stackDepth` field of the context.
- VMArray's own table is the `arrayTable` argument of `VTableCell.Get`.

## Model

| member | source | states |
|---|---|---|
| `VMMethods.VMMethod.constructor` | src/vmobjects/VMMethod.c:102-114 | a new method has exactly L empty literal slots and B bytes; its stored length is B; arguments and locals are unset (signature, holder and stack depth are unset as well, from zeroed allocation) |
| `VMMethods.New` | src/vmobjects/VMMethod.c:57-68 | the collector is asked for `sizeof(VMMethod) + L*sizeof(ptr) + B` bytes; the result is NULL exactly when that request fails, and the table cell is then untouched; otherwise the result is a fresh, initialised method with L slots and length B, carrying the shared VMMethod table, which was built if this was its first use |
| `MethodLayout.LiteralSlotInHeaderToBytecodes` | src/vmobjects/VMMethod.c:57-60 | for a layout where sizeof(VMMethod) is the address of `fields[offset]`, every literal slot lies after the header and ends before the first bytecode byte |
| `MethodLayout.LiteralSlotsDisjoint` | src/vmobjects/VMMethod.c:57-60 | distinct literal slots occupy disjoint words |
| `MethodLayout.BytecodeInAllocation` | src/vmobjects/VMMethod.c:245-248 | for a layout where sizeof(VMMethod) is the address of `fields[offset]`, byte i of the region at `fields[offset + L]` lies after every literal slot and inside the requested allocation, so a byte write can never reach a literal |
| `MethodLayout.BytecodeRegionEndsAllocation` | src/vmobjects/VMMethod.c:58-60 | for such a layout, the byte region addressed from `fields[offset + L]` ends exactly where the requested allocation ends |
| `VMMethods.VMMethod.GetNumberOfLocals` | src/vmobjects/VMMethod.c:147-151 | returns the stored locals count; calling it on an unset (NULL) field is excluded, since the source dereferences it |
| `VMMethods.VMMethod.SetNumberOfLocals` | src/vmobjects/VMMethod.c:154-159 | write-once: stores the value only when the field is unset, and otherwise leaves the first value |
| `VMMethods.VMMethod.SetNumberOfArguments` | src/vmobjects/VMMethod.c:162-167 | write-once, like the locals setter |
| `VMMethods.VMMethod.GetNumberOfArguments` | src/vmobjects/VMMethod.c:203-206 | returns the stored argument count; requires it to be set |
| `VMMethods.VMMethod.GetMaximumNumberOfStackElements` | src/vmobjects/VMMethod.c:170-174 | returns the stored maximum stack depth; requires it to be set |
| `VMMethods.VMMethod.SetMaximumNumberOfStackElements` | src/vmobjects/VMMethod.c:177-181 | always overwrites: afterwards the field holds exactly the new value |
| `WritePolicy.FirstWriteWins` | src/vmobjects/VMMethod.c:154-167 | after any series of write-once calls, the field holds its earlier value if it had one, else the first value written |
| `WritePolicy.LastWriteWins` | src/vmobjects/VMMethod.c:177-181 | after any series of overwriting calls, the field holds the last value written |
| `WritePolicy.WritesLeaveFieldSet` | src/vmobjects/VMMethod.c:154-181 | after at least one setter call, the field is set under either policy |
| `VMMethods.VMMethod.SetHolder` | src/vmobjects/VMMethod.c:192 | the trait's holder setter, as called on each nested invokable, leaves the method's holder equal to the class given |
| `VMMethods.VMMethod.SetHolderAll` | src/vmobjects/VMMethod.c:183-194 | every invokable literal ends with holder c; only holders of those nested methods are written; the literal slots do not change; the receiver's own holder does not change unless it is one of its own literals |
| `VMMethods.VMMethod.GetIndexableField` | src/vmobjects/VMMethod.c:199 | reads literal slot `index`; the base type does no bounds check, so the index must be in range |
| `VMMethods.VMMethod.SetIndexableField` | src/vmobjects/VMMethod.c:85-86 | writes literal slot `index` and no other slot |
| `VMMethods.VMMethod.GetConstant` | src/vmobjects/VMMethod.c:196-200 | returns the literal whose index is the operand byte at `bytecode_index + 1`; that byte must exist and name an existing slot |
| `VMMethods.VMMethod.GetNumberOfBytecodes` | src/vmobjects/VMMethod.c:209-215 | returns -1 exactly when no length is stored, and otherwise the stored length, which for a valid method is the size of the byte region |
| `VMMethods.VMMethod.DebugIndexOutOfRange` | src/vmobjects/VMMethod.c:220-223 | the DEBUG guard fires for a non-negative index exactly when the index is outside the byte region; it fires for index B |
| `VMMethods.VMMethod.GetBytecode` | src/vmobjects/VMMethod.c:218-232 | returns byte `index` of the byte region; the index must be below the length |
| `VMMethods.VMMethod.SetBytecode` | src/vmobjects/VMMethod.c:235-249 | afterwards byte `index` holds the value; every other byte and every literal slot is unchanged |
| `VMMethods.VMMethod.MarkReferences` | src/vmobjects/VMMethod.c:262-271 | the visited references are the non-NULL fields among signature, holder, locals, stack depth, length and arguments, in that order, then the non-NULL literal slots in index order |
| `GcTrace.MarkedSix` | src/vmobjects/VMMethod.c:264-269 | six consecutive `gc_mark_object` calls visit the non-NULL ones among their arguments, in call order |
| `GcTrace.MarkedConcat` | src/vmobjects/VMMethod.c:262-271 | the header visits followed by the base type's visits make the trace of the whole reference sequence |
| `GcTrace.MarkedMembers` | src/vmobjects/VMMethod.c:262-271 | an object is visited if and only if some reference in the sequence points at it |
| `GcTrace.MarkedCount` | src/vmobjects/VMMethod.c:262-271 | every object is visited exactly as many times as there are non-NULL references pointing at it, so each non-NULL reference is visited exactly once and NULLs are skipped |
| `GcTrace.MarkedAllNonNull` | src/vmobjects/VMMethod.c:262-271 | when no reference is NULL, the visits follow the references one for one, in order |
| `VMMethods.MarkReferencesCount` | src/vmobjects/VMMethod.c:262-271 | a mark pass visits each object once for every header field and once for every literal slot that points at it |
| `VMMethods.MarkReferencesReaches` | src/vmobjects/VMMethod.c:262-271 | a mark pass reaches an object exactly when a header field or a literal slot points at it; bytecode bytes play no part |
| `Assembler.Assemble` | src/vmobjects/VMMethod.c:71-96 | the new method's literals equal the context's literals in order; its bytes equal `bytecode[0..bp)`; locals equal the number of context locals; stack depth is the given depth; holder and argument count stay unset |
| `MethodVTable.Specialise` | src/vmobjects/VMMethod.c:285-313 | the table has VMArray's slots plus VMMethod's; each of the 16 VMMethod slots dispatches to VMMethod; every other slot keeps VMArray's entry; the VMInvokable trait is attached |
| `MethodVTable.VTableCell.Get` | src/vmobjects/VMMethod.c:279-318 | the first call builds the table and sets the flag; every later call returns the same table and changes nothing |

## Left out

- `_VMMethod_invoke_method` (VMMethod.c:252-259) pushes an interpreter frame and copies
  arguments. The frame stack and the interpreter are not part of this model.
- `_VMMethod_free` (VMMethod.c:117-130) releases the boxed integers. Dafny has no
  explicit deallocation.
- `gc_start_uninterruptable_allocation` / `gc_end_uninterruptable_allocation`
  (VMMethod.c:63-65) bracket initialisation. They are not modelled, because the
  collector they hold off is not part of this model. Construction is atomic in Dafny.
- `Universe_error_exit` in the DEBUG checks of `get_bytecode` / `set_bytecode` ends the VM.
  Here it is a precondition (the index is below the byte count) plus the predicate
  `DebugIndexOutOfRange`, which says when the guard fires. Negative indices are never
  checked by the source and are excluded by precondition.
- `VMMethods.New`: `gc_allocate_object` is the oracle `gcAllocate`, so the model says
  nothing about when an allocation fails.
- `Assembler.Assemble`: `Universe_new_method` is not part of this model. It is modelled
  as `VMMethod_new` that always succeeds, followed by storing the signature it is passed.
  `method_genc_compute_stack_depth` is the context's `stackDepth` value. The assembled
  method's capability table is therefore not installed (its `vtable` stays `None`).
- `VMMethods.VMMethod.constructor`: `_VMMethod_init` does not touch the signature, holder
  or stack depth. The model assumes the allocator hands out zeroed memory, so those
  fields start NULL.
- Integer widths: boxed integers and counts are unbounded. The C `int` / `size_t`
  conversions (for example a length of 2^31 or more stored through `Universe_new_integer`)
  are not modelled.
- VMArray and VMObject (their `init`, their slot accessors and their `mark_references`)
  are not part of this model. The model assumes new literal slots are NULL, that the
  accessors do no bounds check, and that the base trace visits the non-NULL literal
  slots in index order. The model also assumes `gc_mark_object(NULL)` does nothing.
- `SUPPORTS(o, VMInvokable)` holds here only for literals that are methods. Primitives,
  which also carry the trait, never appear in a literal pool and are not modelled.
- `VMMethods.VMMethod.SetHolder`: the VMInvokable trait's `set_holder` is not part of
  this model and is taken to store the holder and nothing more. If on a method it also
  propagated to that method's own literals, then blocks nested two or more levels deep
  would also receive the holder. This model gives them none, and the frame
  `modifies NestedInvokables()`holder` of `SetHolderAll` would be narrower than the program's.
- `VMMethods.VMMethod.SetHolderAll` follows the code: it does not write the receiver's
  own holder (VMMethod.c:183-194), although its name suggests it would. The installing
  caller sets that holder separately.
- `_VMMethod__get_offset` is the `offset` component of `MethodLayout.Layout`. The
  platform's concrete sizes stay symbolic.
- `MethodLayout`: the layout lemmas require `Layout.Consistent()`, which says that
  sizeof(VMMethod) equals the address of `fields[offset]`. VMObject.h and VMMethod.h
  are not part of this model. The equation holds when `fields` closes VMObject and
  every field VMMethod adds is a pointer, so that SIZE_DIFF_VMOBJECT divides exactly.
