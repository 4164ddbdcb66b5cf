/**
 * The shape both single-lookup functions return: a pair `(result, err)`
 * whose `result` is either the empty list or `[name, tld, registered]`.
 */
module Lookup {

  datatype Option<+T> = None | Some(value: T)

  /** The list `[name, tld, registered]` of a successful lookup. */
  datatype Triple = Triple(name: string, tld: string, registered: bool)

  /** The tuple `(result, err)`; `res` is `None` where the source returns `[]`. */
  datatype Tagged = Tagged(res: Option<Triple>, err: string)

  /** The error string is empty exactly when the result is a triple. */
  predicate WellTagged(t: Tagged) {
    t.err == "" <==> t.res.Some?
  }

  /** The message both lookups give for a missing domain. */
  const MissingParameter: string := "Missing required parameter."
}
