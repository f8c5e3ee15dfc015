/**
 * The pieces of zod that the schemas use: an issue list, integer and string
 * checks, and the library-defined string formats (URL, e-mail, UUID), which
 * are left uninterpreted.
 */
module Zod {

  /** One failed check: the field and the message the schema gives for it. */
  datatype Issue = Issue(path: string, message: string)

  /** The issues of one check: none when it passes, its message when it fails. */
  function Check(ok: bool, path: string, message: string): seq<Issue>
  {
    if ok then [] else [Issue(path, message)]
  }

  /** `z.number().int()`: the number has no fractional part. */
  predicate IsInteger(x: real)
  {
    x.Floor as real == x
  }

  /**
   * The string formats zod decides with its own patterns. They are not visible
   * in the repository, so they are parameters of every schema.
   */
  datatype Formats = Formats(isUrl: string -> bool, isEmail: string -> bool, isUuid: string -> bool)

  predicate IsHexDigit(c: char)
  {
    ('0' <= c <= '9') || ('a' <= c <= 'f') || ('A' <= c <= 'F')
  }

  /** The 8-4-4-4-12 hexadecimal layout of section 4 of RFC 9562. */
  predicate UuidLayout(s: string)
  {
    && |s| == 36
    && forall i :: 0 <= i < 36 ==>
         if i == 8 || i == 13 || i == 18 || i == 23 then s[i] == '-' else IsHexDigit(s[i])
  }

  /** Whatever pattern zod uses for UUIDs, it admits only strings with the RFC 9562 layout. */
  ghost predicate UuidSound(fmt: Formats)
  {
    forall s :: fmt.isUuid(s) ==> UuidLayout(s)
  }
}
