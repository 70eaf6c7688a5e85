/** Shared constants of the `structs` package that the nullable types use. */
module Structs {

  /** `structs.NullString`: the four bytes of the JSON literal `null`. */
  const NullString: string := "null"
}
