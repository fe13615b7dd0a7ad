/**
 * Python values and exceptions as the core sees them. Values the core only
 * passes along (what a caster, a dependency or a decoder produced) are
 * opaque tokens; strings and booleans are concrete because the core's own
 * `str`/`bool` casts build them.
 */
module Runtime {
  datatype Value = Text(s: string) | Flag(b: bool) | Opaque(id: nat)

  /**
   * The exception classes the core distinguishes: Starlette's HTTPException,
   * msgspec's ValidationError, a ValueError (from a caster, or from the
   * unpacking and `dict.update` of `generate_openapi`), and every
   * other exception (TypeError, a DecodeError on malformed JSON, whatever a
   * dependency or handler raises).
   */
  datatype Exc =
    | HttpExc(status: int, detail: string)
    | ValidationExc(detail: string)
    | ValueErrorExc(detail: string)
    | OtherExc(detail: string)

  /** A call into code outside the core either returns a value or raises. */
  datatype Attempt = Done(v: Value) | Raise(e: Exc)
}
