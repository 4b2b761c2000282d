/** Shared value types of the model: identifiers and the failure-carrying wrappers. */
module Core {

  /** A 128-bit globally unique identifier, as `System.Guid` is. */
  newtype Guid = x: int | 0 <= x < 0x1_0000_0000_0000_0000_0000_0000_0000_0000

  /** A value that may be absent (a C# reference that may be null). */
  datatype Option<+T> = None | Some(value: T)

  /** The runtime faults that the modelled code can raise. */
  datatype Fault =
    | NullReference        // a member access on a null reference
    | InvalidOperation     // LINQ `Single()` on a sequence without exactly one element

  /** Either a value or the fault that was raised instead of returning one. */
  datatype Result<+T> = Success(value: T) | Failure(fault: Fault)
}
