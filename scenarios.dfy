/**
 * Client code that exercises a VMMethod through its contracts alone.
 */
module Scenarios {
  import opened Wrappers
  import opened VMMethods
  import opened Assembler
  import MethodVTable

  /** Locals keep the first value stored, the stack depth the last one. */
  method SetterAsymmetry() {
    var m := new VMMethod(4, 1);
    m.SetNumberOfLocals(3);
    m.SetNumberOfLocals(7);
    var locals := m.GetNumberOfLocals();
    assert locals == 3;
    m.SetNumberOfArguments(1);
    m.SetNumberOfArguments(2);
    var arguments := m.GetNumberOfArguments();
    assert arguments == 1;
    m.SetMaximumNumberOfStackElements(4);
    m.SetMaximumNumberOfStackElements(9);
    var depth := m.GetMaximumNumberOfStackElements();
    assert depth == 9;
  }

  /** Assembling reproduces the literals and the bytes; constants resolve through the operand byte. */
  method AssembleRoundTrip() {
    var foo := Some(SymbolObject(Symbol("foo")));
    var fortyTwo := Some(IntegerObject(42));
    var ctx := GenerationContext(Symbol("run"), [foo, fortyTwo], ["a", "b"],
      [0x01, 0x00, 0x02, 0x01, 0xFF, 0x00], 5, 2);
    var meth := Assemble(ctx);
    var length := meth.GetNumberOfBytecodes();
    assert length == 5;
    var last := meth.GetBytecode(4);
    assert last == 0xFF;
    var first := meth.GetConstant(0);
    assert first == foo;
    var second := meth.GetConstant(2);
    assert second == fortyTwo;
    var trace := meth.MarkReferences();
    MarkReferencesReaches(meth, trace, IntegerObject(42));
    assert IntegerObject(42) in trace;
  }

  /** Writing a byte reads back and leaves the other bytes and the literals alone. */
  method BytecodeWriteRead() {
    var m := new VMMethod(3, 2);
    m.SetIndexableField(1, Some(OtherObject(7)));
    m.SetBytecode(0, 0x10);
    m.SetBytecode(2, 0x01);
    m.SetBytecode(1, 0x01);
    var b := m.GetBytecode(0);
    assert b == 0x10;
    var c := m.GetConstant(0);
    assert c == Some(OtherObject(7));
    assert m.DebugIndexOutOfRange(3);
    assert !m.DebugIndexOutOfRange(2);
  }

  /** A nested method in literal slot 2 gets the holder; the enclosing method does not. */
  method NestedHolder() {
    var outer := new VMMethod(0, 3);
    var inner := new VMMethod(0, 0);
    var sym := Some(SymbolObject(Symbol("x")));
    outer.SetIndexableField(0, sym);
    outer.SetIndexableField(2, Some(MethodObject(inner)));
    assert outer.literals[..] == [sym, None, Some(MethodObject(inner))];
    assert SupportsInvokable(outer.literals[2]);
    assert outer.NestedInvokables() == {inner};
    outer.SetHolderAll(VMClass(1));
    assert inner.holder == Some(VMClass(1));
    assert outer.holder.None?;
    assert outer.literals[0] == sym;
  }

  /** The second request for the table returns the first table, whatever it is given. */
  method VTableBuiltOnce(arrayTable: MethodVTable.VTable, otherTable: MethodVTable.VTable) {
    var cell := new MethodVTable.VTableCell();
    var first := cell.Get(arrayTable);
    var second := cell.Get(otherTable);
    assert first == second == MethodVTable.Specialise(arrayTable);
  }
}
