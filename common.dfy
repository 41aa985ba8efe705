/** Shared value types of the inventory API: optional values and results,
    32-bit integers, identifiers, opaque prices and timestamps, and the
    HTTP status codes the handlers return. */
module Common {

  datatype Option<+T> = None | Some(value: T)

  datatype Result<+T, +E> = Ok(value: T) | Err(error: E)

  /** The range of a signed 32-bit integer (`i32` columns and request fields). */
  const I32_MIN: int := -0x8000_0000
  const I32_MAX: int := 0x7FFF_FFFF

  type I32 = x: int | I32_MIN <= x <= I32_MAX

  predicate IsLowerHex(c: char) {
    '0' <= c <= '9' || 'a' <= c <= 'f'
  }

  /** Positions of the four hyphens in the canonical 8-4-4-4-12 form. */
  predicate IsHyphenPosition(i: int) {
    i == 8 || i == 13 || i == 18 || i == 23
  }

  /** The canonical textual form of an identifier: 36 characters,
      lower-case hexadecimal digits in groups 8-4-4-4-12 separated by hyphens. */
  predicate IsUuidText(s: string) {
    |s| == 36 &&
    forall i | 0 <= i < |s| :: if IsHyphenPosition(i) then s[i] == '-' else IsLowerHex(s[i])
  }

  /** An identifier, held as its canonical text; formatting it with
      `to_string` gives back exactly this text. */
  type Uuid = s: string | IsUuidText(s)
    witness seq(36, i => if IsHyphenPosition(i) then '-' else '0')

  /** The all-zero identifier. */
  const NIL_UUID: Uuid := seq(36, i => if IsHyphenPosition(i) then '-' else '0')

  /** `Uuid::parse_str` / `Uuid::from_str` on the canonical form. */
  function ParseUuid(s: string): (r: Option<Uuid>)
    ensures r.Some? <==> IsUuidText(s)
    ensures r.Some? ==> r.value == s
  {
    if IsUuidText(s) then Some(s) else None
  }

  /** `Uuid::from_str(..).ok()` applied to an optional string, flattened. */
  function ParseOptionalUuid(s: Option<string>): (r: Option<Uuid>)
    ensures r.Some? <==> s.Some? && IsUuidText(s.value)
    ensures r.Some? ==> r.value == s.value
  {
    match s
    case None => None
    case Some(text) => ParseUuid(text)
  }

  /** A `rust_decimal` price, carried verbatim and never computed with. */
  datatype Decimal = Decimal(mantissa: int, scale: nat)

  /** A creation instant, supplied by the clock. */
  type Timestamp = int

  type StatusCode = int

  const OK: StatusCode := 200
  const CREATED: StatusCode := 201
  const BAD_REQUEST: StatusCode := 400
  const NOT_FOUND: StatusCode := 404
  const CONFLICT: StatusCode := 409
  const INTERNAL_SERVER_ERROR: StatusCode := 500

  /** A successful HTTP answer: its status and its JSON body. */
  datatype Reply<+T> = Reply(status: StatusCode, body: T)
}
