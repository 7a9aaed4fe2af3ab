/**
 * The compiled-method heap object of the VM (VMMethod).
 *
 * One allocation holds the header, L literal slots inherited from VMArray
 * and, right after them, a raw region of B bytecode bytes. Here the literal
 * slots are the array `literals` and the byte region the array `bytecodes`;
 * where the two regions sit inside the allocation is modelled in MethodLayout.
 */
module VMMethods {
  import opened Wrappers
  import WritePolicy
  import GcTrace
  import MethodLayout
  import MethodVTable

  /** uint8_t */
  newtype uint8 = x: int | 0 <= x < 256

  /** A VMSymbol, used as an opaque value (e.g. a method signature). */
  datatype Symbol = Symbol(name: string)

  /** A VMClass, used only as the target of the holder back-reference. */
  datatype VMClass = VMClass(id: nat)

  /** A heap object a slot or header field can point at. */
  datatype VMObject =
    | SymbolObject(symbol: Symbol)
    | IntegerObject(value: int)
    | ClassObject(cls: VMClass)
    | MethodObject(invokable: VMMethod)
    | OtherObject(id: nat)

  /** SUPPORTS(o, VMInvokable): of the objects modelled, only methods are invokable. */
  predicate SupportsInvokable(ref: Option<VMObject>) {
    ref.Some? && ref.value.MethodObject?
  }

  /** The header fields as the references the collector sees. */
  function SymbolRef(s: Option<Symbol>): Option<VMObject> {
    if s.Some? then Some(SymbolObject(s.value)) else None
  }

  function ClassRef(c: Option<VMClass>): Option<VMObject> {
    if c.Some? then Some(ClassObject(c.value)) else None
  }

  /** A boxed integer field (Universe_new_integer) as the VMInteger it points at. */
  function IntegerRef(n: Option<int>): Option<VMObject> {
    if n.Some? then Some(IntegerObject(n.value)) else None
  }

  class VMMethod {
    /** The capability table `_vtable`; VMMethod_new installs the shared VMMethod table. */
    var vtable: Option<MethodVTable.VTable>
    var signature: Option<Symbol>
    var holder: Option<VMClass>
    var numberOfLocals: Option<int>
    var maximumNumberOfStackElements: Option<int>
    /** Boxed from a size_t, so never negative. */
    var bytecodesLength: Option<nat>
    var numberOfArguments: Option<int>
    /** The indexable fields of VMArray: the literal pool. Its length never changes. */
    const literals: array<Option<VMObject>>
    /** The raw bytes that follow the literal slots. Its length never changes. */
    const bytecodes: array<uint8>

    /** The stored length, once set, is exactly the size of the byte region. */
    ghost predicate Valid()
      reads this
    {
      bytecodesLength == Some(bytecodes.Length)
    }

    /**
     * _VMMethod_init on a freshly allocated block: L literal slots, B bytes,
     * the length boxed, arguments and locals NULL. The allocator hands out
     * zeroed memory, so the fields init leaves alone are NULL too.
     */
    constructor (numberOfBytecodes: nat, numberOfConstants: nat)
      ensures Valid()
      ensures fresh(literals) && fresh(bytecodes)
      ensures literals.Length == numberOfConstants && bytecodes.Length == numberOfBytecodes
      ensures forall k :: 0 <= k < literals.Length ==> literals[k].None?
      ensures bytecodesLength == Some(numberOfBytecodes)
      ensures numberOfArguments.None? && numberOfLocals.None?
      ensures signature.None? && holder.None? && maximumNumberOfStackElements.None?
      ensures vtable.None?
    {
      vtable := None;
      literals := new Option<VMObject>[numberOfConstants](_ => None);
      bytecodes := new uint8[numberOfBytecodes];
      bytecodesLength := Some(numberOfBytecodes);
      numberOfArguments := None;
      numberOfLocals := None;
      signature := None;
      holder := None;
      maximumNumberOfStackElements := None;
    }

    method GetNumberOfLocals() returns (n: int)
      requires numberOfLocals.Some?
      ensures Some(n) == numberOfLocals
    {
      n := numberOfLocals.value;
    }

    /** Write-once: a call on an already set field changes nothing. */
    method SetNumberOfLocals(value: int)
      modifies this`numberOfLocals
      ensures numberOfLocals == WritePolicy.Write(WritePolicy.WriteOnce, old(numberOfLocals), value)
      ensures old(numberOfLocals).Some? ==> numberOfLocals == old(numberOfLocals)
    {
      if numberOfLocals.None? {
        numberOfLocals := Some(value);
      }
    }

    /** Write-once, like SetNumberOfLocals. */
    method SetNumberOfArguments(value: int)
      modifies this`numberOfArguments
      ensures numberOfArguments == WritePolicy.Write(WritePolicy.WriteOnce, old(numberOfArguments), value)
      ensures old(numberOfArguments).Some? ==> numberOfArguments == old(numberOfArguments)
    {
      if numberOfArguments.None? {
        numberOfArguments := Some(value);
      }
    }

    method GetNumberOfArguments() returns (n: int)
      requires numberOfArguments.Some?
      ensures Some(n) == numberOfArguments
    {
      n := numberOfArguments.value;
    }

    method GetMaximumNumberOfStackElements() returns (n: int)
      requires maximumNumberOfStackElements.Some?
      ensures Some(n) == maximumNumberOfStackElements
    {
      n := maximumNumberOfStackElements.value;
    }

    /** Always overwrites, unlike the locals and arguments setters. */
    method SetMaximumNumberOfStackElements(value: int)
      modifies this`maximumNumberOfStackElements
      ensures maximumNumberOfStackElements ==
        WritePolicy.Write(WritePolicy.AlwaysOverwrite, old(maximumNumberOfStackElements), value)
      ensures maximumNumberOfStackElements == Some(value)
    {
      maximumNumberOfStackElements := Some(value);
    }

    /** The holder setter of the VMInvokable trait. */
    method SetHolder(value: VMClass)
      modifies this`holder
      ensures holder == Some(value)
    {
      holder := Some(value);
    }

    /** The methods reachable as invokable literals of this method. */
    ghost function NestedInvokables(): set<VMMethod>
      reads literals
    {
      set k | 0 <= k < literals.Length && SupportsInvokable(literals[k]) :: literals[k].value.invokable
    }

    /**
     * Gives every invokable literal the holder `value`. Only the nested
     * methods are written: the receiver's own holder changes only when the
     * receiver is one of its own literals.
     */
    method SetHolderAll(value: VMClass)
      modifies NestedInvokables()`holder
      ensures forall m :: m in NestedInvokables() ==> m.holder == Some(value)
      ensures this !in NestedInvokables() ==> holder == old(holder)
      ensures literals[..] == old(literals[..])
    {
      for k := 0 to literals.Length
        invariant forall j :: 0 <= j < k && SupportsInvokable(literals[j]) ==>
          literals[j].value.invokable.holder == Some(value)
      {
        var o := literals[k];
        if SupportsInvokable(o) {
          o.value.invokable.SetHolder(value);
        }
      }
    }

    /** VMArray's get_indexable_field: the base type leaves bounds to its callers. */
    method GetIndexableField(index: int) returns (ref: Option<VMObject>)
      requires 0 <= index < literals.Length
      ensures ref == literals[index]
    {
      ref := literals[index];
    }

    /** VMArray's set_indexable_field. */
    method SetIndexableField(index: int, ref: Option<VMObject>)
      requires 0 <= index < literals.Length
      modifies literals
      ensures literals[..] == old(literals[..])[index := ref]
    {
      literals[index] := ref;
    }

    /**
     * The literal named by the one-byte operand that follows the opcode at
     * `bytecodeIndex`.
     */
    method GetConstant(bytecodeIndex: int) returns (constant: Option<VMObject>)
      requires 0 <= bytecodeIndex && bytecodeIndex + 1 < bytecodes.Length
      requires bytecodes[bytecodeIndex + 1] as int < literals.Length
      ensures constant == literals[bytecodes[bytecodeIndex + 1]]
    {
      var bc := GetBytecode(bytecodeIndex + 1);
      constant := GetIndexableField(bc as int);
    }

    /** The stored bytecode count, or -1 when no length is stored. */
    method GetNumberOfBytecodes() returns (n: int)
      ensures n == -1 <==> bytecodesLength.None?
      ensures bytecodesLength.Some? ==> n == bytecodesLength.value
      ensures Valid() ==> n == bytecodes.Length
    {
      if bytecodesLength.Some? {
        n := bytecodesLength.value;
      } else {
        n := -1;
      }
    }

    /**
     * The DEBUG-build guard of get_bytecode and set_bytecode: true when the
     * call ends in Universe_error_exit.
     */
    predicate DebugIndexOutOfRange(index: int)
      reads this
      requires bytecodesLength.Some?
      ensures Valid() && 0 <= index ==>
        (DebugIndexOutOfRange(index) <==> !(index < bytecodes.Length))
    {
      index >= bytecodesLength.value
    }

    method GetBytecode(index: int) returns (b: uint8)
      requires 0 <= index < bytecodes.Length
      ensures b == bytecodes[index]
    {
      b := bytecodes[index];
    }

    /** Writes one byte of the bytecode region; the literal slots are a different region. */
    method SetBytecode(index: int, value: uint8)
      requires 0 <= index < bytecodes.Length
      modifies bytecodes
      ensures bytecodes[..] == old(bytecodes[..])[index := value]
      ensures literals[..] == old(literals[..])
    {
      bytecodes[index] := value;
    }

    /** The header fields in the order mark_references visits them. */
    function HeaderReferences(): seq<Option<VMObject>>
      reads this
    {
      [SymbolRef(signature), ClassRef(holder), IntegerRef(numberOfLocals),
       IntegerRef(maximumNumberOfStackElements), IntegerRef(bytecodesLength),
       IntegerRef(numberOfArguments)]
    }

    /**
     * The references handed to the collector: the six header fields, then the
     * literal slots through the base type. The bytecode bytes are not references.
     */
    method MarkReferences() returns (visited: seq<VMObject>)
      ensures visited == GcTrace.Marked(HeaderReferences()) + GcTrace.Marked(literals[..])
    {
      visited := GcTrace.Mark(SymbolRef(signature));
      visited := visited + GcTrace.Mark(ClassRef(holder));
      visited := visited + GcTrace.Mark(IntegerRef(numberOfLocals));
      visited := visited + GcTrace.Mark(IntegerRef(maximumNumberOfStackElements));
      visited := visited + GcTrace.Mark(IntegerRef(bytecodesLength));
      visited := visited + GcTrace.Mark(IntegerRef(numberOfArguments));
      GcTrace.MarkedSix(SymbolRef(signature), ClassRef(holder), IntegerRef(numberOfLocals),
        IntegerRef(maximumNumberOfStackElements), IntegerRef(bytecodesLength), IntegerRef(numberOfArguments));
      var k := 0;
      while k < literals.Length
        invariant 0 <= k <= literals.Length
        invariant visited == GcTrace.Marked(HeaderReferences()) + GcTrace.Marked(literals[..k])
      {
        GcTrace.MarkedPrefixStep(literals[..], k);
        visited := visited + GcTrace.Mark(literals[k]);
        k := k + 1;
      }
      assert literals[..literals.Length] == literals[..];
    }
  }

  /**
   * What a mark pass over a method reaches: an object is visited exactly
   * when a header field or a literal slot points at it. No bytecode byte
   * enters the trace, since the trace is fixed by the header and literals alone.
   */
  lemma {:induction false} MarkReferencesReaches(m: VMMethod, visited: seq<VMObject>, x: VMObject)
    requires visited == GcTrace.Marked(m.HeaderReferences()) + GcTrace.Marked(m.literals[..])
    ensures x in visited <==>
      (Some(x) in m.HeaderReferences() || exists k :: 0 <= k < m.literals.Length && m.literals[k] == Some(x))
  {
    var header := m.HeaderReferences();
    GcTrace.MarkedMembers(header, x);
    GcTrace.MarkedMembers(m.literals[..], x);
    if Some(x) in header {
      var i :| 0 <= i < |header| && header[i] == Some(x);
    }
    if exists k :: 0 <= k < m.literals.Length && m.literals[k] == Some(x) {
      var k :| 0 <= k < m.literals.Length && m.literals[k] == Some(x);
      assert m.literals[..][k] == Some(x);
    }
  }

  /**
   * A mark pass visits each object once per header field or literal slot
   * that points at it, so every non-NULL reference is visited exactly once.
   */
  lemma MarkReferencesCount(m: VMMethod, visited: seq<VMObject>, x: VMObject)
    requires visited == GcTrace.Marked(m.HeaderReferences()) + GcTrace.Marked(m.literals[..])
    ensures multiset(visited)[x] ==
      |GcTrace.PointingAt(m.HeaderReferences(), x)| + |GcTrace.PointingAt(m.literals[..], x)|
  {
    GcTrace.MarkedCount(m.HeaderReferences(), x);
    GcTrace.MarkedCount(m.literals[..], x);
  }

  /**
   * VMMethod_new: asks the collector for the whole block, installs the shared
   * VMMethod capability table (building it on first use) and initialises the
   * block; a NULL from the collector is passed on. `gcAllocate` says whether
   * gc_allocate_object can satisfy a request of the given size; `arrayTable`
   * is VMArray's table.
   */
  method New(layout: MethodLayout.Layout, numberOfBytecodes: nat, numberOfConstants: nat,
             gcAllocate: nat -> bool, cell: MethodVTable.VTableCell, arrayTable: MethodVTable.VTable)
    returns (result: VMMethod?)
    modifies cell
    ensures result != null <==> gcAllocate(layout.AllocationSize(numberOfConstants, numberOfBytecodes))
    ensures result == null ==> unchanged(cell)
    ensures result != null ==>
      && cell.inited
      && cell.table == (if old(cell.inited) then old(cell.table) else MethodVTable.Specialise(arrayTable))
      && result.vtable == Some(cell.table)
    ensures result != null ==>
      && fresh(result) && fresh(result.literals) && fresh(result.bytecodes)
      && result.Valid()
      && result.literals.Length == numberOfConstants
      && result.bytecodes.Length == numberOfBytecodes
      && (forall k :: 0 <= k < result.literals.Length ==> result.literals[k].None?)
      && result.bytecodesLength == Some(numberOfBytecodes)
      && result.numberOfArguments.None? && result.numberOfLocals.None?
  {
    var size := layout.AllocationSize(numberOfConstants, numberOfBytecodes);
    if gcAllocate(size) {
      var table := cell.Get(arrayTable);
      result := new VMMethod(numberOfBytecodes, numberOfConstants);
      result.vtable := Some(table);
    } else {
      result := null;
    }
  }
}
