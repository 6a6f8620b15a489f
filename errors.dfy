/**
 * The reasons the attribute aborts, one constructor per reason.  Several
 * panic sites can share a reason (`NameNotSingleStr`), and `NoMethods` is an
 * out-of-range index rather than a `panic!`.  A `name` value that does not
 * form a valid identifier has no constructor: the model accepts any string.
 */
module Errors {

  /** Malformed attribute arguments. */
  datatype ArgError =
    | TooManyArgs           // more than two `key(...)` groups
    | KeyNotIdent           // a key that is not a single identifier
    | UnknownKey(key: string)
    | DuplicateName
    | NameNotSingleStr      // `name` without exactly one string literal
    | DuplicateClone
    | CloneNotInt           // a `clone` entry that is not an integer literal
    | CloneOutOfRange       // an integer literal that does not fit in `usize`

  datatype GenError =
    | ConfigError(arg: ArgError)
    | NoMethods                  // `methods[0]` on an impl block without methods
    | SignatureMismatch(index: nat)
    | NoStructName               // the impl's self type is not a path
    | ByValueReceiver            // a member takes `self` by value
}
