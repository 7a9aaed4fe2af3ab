/**
 * VMMethod_assemble: builds a method from what the compiler collected for it.
 */
module Assembler {
  import opened Wrappers
  import opened VMMethods

  /**
   * The parts of a method_generation_context the assembler reads.
   * `bytecode` is the compiler's buffer and `bp` the number of bytes written
   * to it; `stackDepth` is what method_genc_compute_stack_depth returns.
   */
  datatype GenerationContext = GenerationContext(
    signature: Symbol,
    literals: seq<Option<VMObject>>,
    locals: seq<string>,
    bytecode: seq<uint8>,
    bp: nat,
    stackDepth: int)

  /**
   * The new method holds the context's literals in index order and its first
   * `bp` bytes; the locals count and stack depth are set, the holder is left
   * for class installation and the argument count for the caller.
   */
  method Assemble(mgenc: GenerationContext) returns (meth: VMMethod)
    requires mgenc.bp <= |mgenc.bytecode|
    ensures fresh(meth) && fresh(meth.literals) && fresh(meth.bytecodes)
    ensures meth.Valid()
    ensures meth.literals[..] == mgenc.literals
    ensures meth.bytecodes[..] == mgenc.bytecode[..mgenc.bp]
    ensures meth.signature == Some(mgenc.signature)
    ensures meth.numberOfLocals == Some(|mgenc.locals|)
    ensures meth.maximumNumberOfStackElements == Some(mgenc.stackDepth)
    ensures meth.holder.None? && meth.numberOfArguments.None?
  {
    var numLiterals := |mgenc.literals|;
    // Universe_new_method: a new method that also records the signature
    meth := new VMMethod(mgenc.bp, numLiterals);
    meth.signature := Some(mgenc.signature);

    var numLocals := |mgenc.locals|;
    meth.SetNumberOfLocals(numLocals);
    meth.SetMaximumNumberOfStackElements(mgenc.stackDepth);

    for i := 0 to numLiterals
      invariant meth.literals[..i] == mgenc.literals[..i]
      invariant meth.Valid() && meth.bytecodes.Length == mgenc.bp
      invariant meth.signature == Some(mgenc.signature)
      invariant meth.numberOfLocals == Some(numLocals)
      invariant meth.maximumNumberOfStackElements == Some(mgenc.stackDepth)
      invariant meth.holder.None? && meth.numberOfArguments.None?
    {
      var l := mgenc.literals[i];
      meth.SetIndexableField(i, l);
    }

    for i := 0 to mgenc.bp
      invariant meth.bytecodes[..i] == mgenc.bytecode[..i]
      invariant meth.literals[..] == mgenc.literals
      invariant meth.Valid()
      invariant meth.signature == Some(mgenc.signature)
      invariant meth.numberOfLocals == Some(numLocals)
      invariant meth.maximumNumberOfStackElements == Some(mgenc.stackDepth)
      invariant meth.holder.None? && meth.numberOfArguments.None?
    {
      meth.SetBytecode(i, mgenc.bytecode[i]);
    }
  }
}
