/** Nullable and throwing values of the TypeScript source, as datatypes. */
module Wrappers {

  /** `T | null` (or `T | undefined`): `None` stands for the absent value. */
  datatype Option<+T> = None | Some(value: T)

  /** The outcome of calling a pipeline stage: it returns a value or it throws. */
  datatype Attempt<+T> = Ok(value: T) | Throws
}
