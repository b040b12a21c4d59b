/** Optional values and the exceptions of the launcher's Java code, written as data. */
module Outcomes {

  /** Brooklyn's `Maybe`: either a present value or absent; never null. */
  datatype Maybe<+T> = Absent | Present(value: T)

  /** The unchecked exceptions the modelled code can raise. */
  datatype Fault = NullPointer | ClassCast

  /** The outcome of a Java call that either returns a value or throws. */
  datatype Result<+T> = Ok(value: T) | Thrown(fault: Fault)
}
