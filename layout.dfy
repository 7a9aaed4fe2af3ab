/**
 * The byte layout of one VMMethod allocation.
 *
 * A method is a single block: the VMMethod header (sizeof(VMMethod) bytes),
 * then one pointer-sized slot per literal, then one byte per bytecode.
 * The C code addresses both trailing regions through the `fields` array of
 * VMObject: literal k is `fields[offset + k]` and bytecode i is byte i past
 * `&fields[offset + L]`, where `offset` is what `_get_offset` returns
 * (SIZE_DIFF_VMOBJECT(VMMethod), the header words VMMethod adds to VMObject).
 * The sizes are fixed by the platform, so they stay symbolic here.
 */
module MethodLayout {

  /**
   * headerSize:  sizeof(VMMethod)
   * fieldsBase:  byte offset of `fields[0]` from the start of the object
   * pointerSize: sizeof(pVMObject)
   * offset:      the value `_get_offset` returns
   */
  datatype Layout = Layout(headerSize: nat, fieldsBase: nat, pointerSize: nat, offset: nat)
  {
    /**
     * The header ends exactly where `fields[offset]`, the first literal slot,
     * starts. This holds when `fields` closes VMObject (so sizeof(VMObject)
     * is fieldsBase) and every field VMMethod adds is a pointer (signature,
     * holder and the four boxed counts), so that SIZE_DIFF_VMOBJECT divides
     * exactly and leaves no padding.
     */
    predicate Consistent() {
      headerSize == fieldsBase + pointerSize * offset
    }

    /** Byte address of `fields[j]`. */
    function FieldAddress(j: nat): nat {
      fieldsBase + pointerSize * j
    }

    /** First byte of literal slot k. */
    function LiteralAddress(k: nat): nat {
      FieldAddress(offset + k)
    }

    /** Byte i of the bytecode region of a method with literalCount literals. */
    function BytecodeAddress(literalCount: nat, i: nat): nat {
      FieldAddress(offset + literalCount) + i
    }

    /** The size VMMethod_new asks the collector for. */
    function AllocationSize(literalCount: nat, bytecodeCount: nat): nat {
      headerSize + pointerSize * literalCount + bytecodeCount
    }
  }

  /** Distributing the pointer size over a field index. */
  lemma {:induction false} FieldAddressSplit(layout: Layout, a: nat, b: nat)
    ensures layout.FieldAddress(a + b) == layout.FieldAddress(a) + layout.pointerSize * b
  {
    assert layout.pointerSize * (a + b) == layout.pointerSize * a + layout.pointerSize * b;
  }

  /** Every literal slot lies after the header and ends before the bytecode region starts. */
  lemma {:induction false} LiteralSlotInHeaderToBytecodes(layout: Layout, literalCount: nat, k: nat)
    requires layout.Consistent()
    requires k < literalCount
    ensures layout.headerSize <= layout.LiteralAddress(k)
    ensures layout.LiteralAddress(k) + layout.pointerSize <= layout.BytecodeAddress(literalCount, 0)
  {
    FieldAddressSplit(layout, layout.offset, k);
    FieldAddressSplit(layout, layout.offset, literalCount);
    assert layout.pointerSize * k + layout.pointerSize == layout.pointerSize * (k + 1);
    MonotoneProduct(layout.pointerSize, k + 1, literalCount);
  }

  /** Two different literal slots never overlap. */
  lemma {:induction false} LiteralSlotsDisjoint(layout: Layout, j: nat, k: nat)
    requires j < k
    ensures layout.LiteralAddress(j) + layout.pointerSize <= layout.LiteralAddress(k)
  {
    FieldAddressSplit(layout, layout.offset + j, 1);
    assert layout.offset + j + 1 <= layout.offset + k;
    MonotoneProduct(layout.pointerSize, layout.offset + j + 1, layout.offset + k);
  }

  /**
   * Every bytecode byte lies inside the allocation, after every literal slot:
   * writing a byte can never overwrite a literal.
   */
  lemma {:induction false} BytecodeInAllocation(layout: Layout, literalCount: nat, bytecodeCount: nat, i: nat)
    requires layout.Consistent()
    requires i < bytecodeCount
    ensures forall k :: 0 <= k < literalCount ==>
      layout.LiteralAddress(k) + layout.pointerSize <= layout.BytecodeAddress(literalCount, i)
    ensures layout.BytecodeAddress(literalCount, i) < layout.AllocationSize(literalCount, bytecodeCount)
  {
    forall k | 0 <= k < literalCount
      ensures layout.LiteralAddress(k) + layout.pointerSize <= layout.BytecodeAddress(literalCount, i)
    {
      LiteralSlotInHeaderToBytecodes(layout, literalCount, k);
    }
    FieldAddressSplit(layout, layout.offset, literalCount);
  }

  /** The bytecode region ends exactly at the end of the allocation. */
  lemma {:induction false} BytecodeRegionEndsAllocation(layout: Layout, literalCount: nat, bytecodeCount: nat)
    requires layout.Consistent()
    ensures layout.BytecodeAddress(literalCount, bytecodeCount) == layout.AllocationSize(literalCount, bytecodeCount)
  {
    FieldAddressSplit(layout, layout.offset, literalCount);
  }

  lemma {:induction false} MonotoneProduct(p: nat, a: nat, b: nat)
    requires a <= b
    ensures p * a <= p * b
  {
    assert p * b == p * a + p * (b - a);
  }
}
