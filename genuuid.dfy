/** pgtype.UUID and genuuid.MakeValidIfNeeded (internal/reminder/genuuid/generator.go). */
module GenUuid {
  import opened Text

  /** A Postgres UUID: sixteen bytes and a validity flag (false for SQL NULL). */
  datatype Uuid = Uuid(bytes: seq<Byte>, valid: bool)

  /** The zero value `pgtype.UUID{}`. */
  const ZeroUuid: Uuid := Uuid([0, 0, 0, 0, 0, 0, 0, 0, 0, 0, 0, 0, 0, 0, 0, 0], false)

  /**
   * MakeValidIfNeeded: a valid UUID is left alone; an invalid one receives the
   * bytes `drawn` (the result of `uuid.New()`, a parameter here) and becomes valid.
   */
  function MakeValidIfNeeded(input: Uuid, drawn: seq<Byte>): (r: Uuid)
    ensures r.valid
    ensures input.valid ==> r == input
    ensures !input.valid ==> r.bytes == drawn
  {
    if input.valid then input else Uuid(drawn, true)
  }

  /** A second call changes nothing, whatever bytes it would have drawn. */
  lemma MakeValidIdempotent(input: Uuid, drawn: seq<Byte>, drawn2: seq<Byte>)
    ensures MakeValidIfNeeded(MakeValidIfNeeded(input, drawn), drawn2) == MakeValidIfNeeded(input, drawn)
  {
  }
}
