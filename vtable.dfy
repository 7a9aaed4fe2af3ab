/**
 * VMMethod_vtable: the VMMethod capability table, built on first use from
 * VMArray's table and shared by every method afterwards.
 */
module MethodVTable {

  /**
   * A capability table: for each operation slot, the type whose
   * implementation is installed there; and the traits the type claims.
   */
  datatype VTable = VTable(entries: map<string, string>, traits: set<string>)

  /** The slots VMMethod installs its own implementation in. */
  const MethodOperations: set<string> := {
    "init", "free",
    "get_number_of_locals", "set_number_of_locals",
    "get_maximum_number_of_stack_elements", "set_maximum_number_of_stack_elements",
    "_get_offset", "set_holder_all", "get_constant",
    "get_number_of_arguments", "set_number_of_arguments",
    "get_number_of_bytecodes", "get_bytecode", "set_bytecode",
    "invoke_method", "mark_references"
  }

  /**
   * VMArray's table copied, the VMInvokable trait attached, and every
   * VMMethod slot pointed at VMMethod's implementation.
   */
  function Specialise(arrayTable: VTable): (table: VTable)
    ensures table.entries.Keys == arrayTable.entries.Keys + MethodOperations
    ensures forall op :: op in MethodOperations ==> table.entries[op] == "VMMethod"
    ensures forall op :: op in arrayTable.entries && op !in MethodOperations ==>
      table.entries[op] == arrayTable.entries[op]
    ensures table.traits == arrayTable.traits + {"VMInvokable"}
  {
    VTable(
      map op | op in arrayTable.entries.Keys + MethodOperations ::
        if op in MethodOperations then "VMMethod" else arrayTable.entries[op],
      arrayTable.traits + {"VMInvokable"})
  }

  /** The static table together with its VMMethod_vtable_inited flag. */
  class VTableCell {
    var inited: bool
    var table: VTable

    constructor ()
      ensures !inited
    {
      inited := false;
      table := VTable(map[], {});
    }

    /** Builds the table on the first call only; later calls return it unchanged. */
    method Get(arrayTable: VTable) returns (t: VTable)
      modifies this
      ensures inited && t == table
      ensures old(inited) ==> table == old(table)
      ensures !old(inited) ==> table == Specialise(arrayTable)
    {
      if !inited {
        table := Specialise(arrayTable);
        inited := true;
      }
      t := table;
    }
  }
}
