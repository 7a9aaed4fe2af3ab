/**
 * The two write policies of the boxed header counts of a VMMethod.
 * `set_number_of_locals` and `set_number_of_arguments` only store when the
 * field is still NULL; `set_maximum_number_of_stack_elements` always stores.
 */
module WritePolicy {
  import opened Wrappers

  datatype Policy = WriteOnce | AlwaysOverwrite

  /** The field after one setter call with the given policy. */
  function Write(policy: Policy, field: Option<int>, value: int): Option<int> {
    match policy
    case WriteOnce => if field.None? then Some(value) else field
    case AlwaysOverwrite => Some(value)
  }

  /** The field after a series of setter calls, in call order. */
  function WriteAll(policy: Policy, field: Option<int>, values: seq<int>): Option<int>
    decreases |values|
  {
    if values == [] then field else WriteAll(policy, Write(policy, field, values[0]), values[1..])
  }

  /** Under WriteOnce the first value ever stored stays, whatever is written later. */
  lemma {:induction false} FirstWriteWins(field: Option<int>, values: seq<int>)
    ensures WriteAll(WriteOnce, field, values) ==
      if field.Some? then field
      else if values == [] then None
      else Some(values[0])
    decreases |values|
  {
    if values != [] {
      FirstWriteWins(Write(WriteOnce, field, values[0]), values[1..]);
    }
  }

  /** Under AlwaysOverwrite the last value written is the one that stays. */
  lemma {:induction false} LastWriteWins(field: Option<int>, values: seq<int>)
    ensures WriteAll(AlwaysOverwrite, field, values) ==
      if values == [] then field else Some(values[|values| - 1])
    decreases |values|
  {
    if values != [] {
      LastWriteWins(Some(values[0]), values[1..]);
    }
  }

  /** After any non-empty series of writes the field is set, under either policy. */
  lemma {:induction false} WritesLeaveFieldSet(policy: Policy, field: Option<int>, values: seq<int>)
    requires values != []
    ensures WriteAll(policy, field, values).Some?
  {
    match policy
    case WriteOnce => FirstWriteWins(field, values);
    case AlwaysOverwrite => LastWriteWins(field, values);
  }
}
