/** The Python implementation's UUID helpers (`todo_api.utils.uuid`). */
module PyUuid {
  import opened Wrappers
  import opened Uuids

  /** An argument of any Python type: a UUID object or something else. */
  datatype PyValue = UuidValue(uuid: Uuid) | OtherValue

  /** The `ValueError`s these helpers raise. */
  datatype ValueError =
    | ExpectedUuid                                    // the argument is not a UUID
    | ExpectedVersion(expected: nat, got: Option<nat>) // a UUID of another (or no) version
    | BadlyFormed(text: string)                       // text that is not a UUID

  /** Bit 76 of a UUID's value: the low bit of the version field (`1 << 76`). */
  const VersionShift: nat := 0x1000_0000_0000_0000_0000

  /** Bit 62 of a UUID's value: the low bit of the two variant bits (`1 << 62`). */
  const VariantShift: nat := 0x4000_0000_0000_0000

  /** Where the version and variant fields lie in the value: digit 12 is bits
    * 76-79, and the top two bits of digit 16 are bits 62-63. */
  lemma VersionAndVariantBits(u: Uuid)
    ensures (Value(u) / VersionShift) % 16 == u[12]
    ensures (Value(u) / VariantShift) % 4 == u[16] / 4
  {
    Pow16Literals();
    DigitPlace(u, 12);
    var hi := Value(u[..12]) * 16 + u[12];
    DivPlaced(hi, Value(u[13..]), VersionShift);
    DigitPlace(u, 16);
    var top := Value(u[..16]);
    DivPlaced(top * 4 + u[16] / 4, (u[16] % 4) * 0x1000_0000_0000_0000 + Value(u[17..]), VariantShift);
  }

  /** Python's `UUID.version`: `(int >> 76) & 0xf` when the variant bits
    * (`int >> 62 & 0b11`) are `0b10`, the RFC variant, otherwise `None`. */
  function Version(u: Uuid): (r: Option<nat>)
    ensures r.Some? ==> r.value < 16
    ensures r == if (Value(u) / VariantShift) % 4 == 2 then Some((Value(u) / VersionShift) % 16) else None
  {
    VersionAndVariantBits(u);
    if 8 <= u[16] < 12 then Some(u[12]) else None
  }

  /** `validate_uuid`: the type check comes first, then the version check;
    * the accepted value is returned unchanged. The `Literal` annotation on
    * `version` is a static hint that Python does not check at run time, so
    * any version is a possible argument. */
  function ValidateUuid(val: PyValue, version: nat): (r: Result<Uuid, ValueError>)
    ensures r.Ok? <==> val.UuidValue? && Version(val.uuid) == Some(version)
    ensures r.Ok? ==> r.value == val.uuid
    ensures val.OtherValue? ==> r == Err(ExpectedUuid)
    ensures val.UuidValue? && r.Err? ==> r.error == ExpectedVersion(version, Version(val.uuid))
  {
    if val.OtherValue? then Err(ExpectedUuid)
    else if Version(val.uuid) != Some(version) then Err(ExpectedVersion(version, Version(val.uuid)))
    else Ok(val.uuid)
  }

  /** `parse_uuid7`: parses the text and checks no version at all. */
  function ParseUuid7(text: string): (r: Result<Uuid, ValueError>)
    ensures r.Ok? <==> Parse(text).Some?
    ensures r.Ok? ==> r.value == Parse(text).value
    ensures r.Err? ==> r.error == BadlyFormed(text)
  {
    match Parse(text)
    case Some(u) => Ok(u)
    case None => Err(BadlyFormed(text))
  }

  /** A UUID of version `v` in the layout of section 4 of RFC 9562: version
    * digit `v` and the variant bits 10. */
  predicate IsRfcVersion(u: Uuid, v: nat)
  {
    u[12] == v && 8 <= u[16] < 12
  }

  /** `validate_uuid(_, v)` accepts exactly the RFC 9562 layout of version
    * `v`, for every `v`; one above 15 is never accepted. */
  lemma ValidateUuidAcceptsExactlyRfcVersion(u: Uuid, v: nat)
    ensures ValidateUuid(UuidValue(u), v).Ok? <==> IsRfcVersion(u, v)
    ensures v >= 16 ==> ValidateUuid(UuidValue(u), v).Err?
  {
  }

  /** `parse_uuid7` does not deserve its name: the text of a UUID of any
    * version, or of no RFC version at all, parses, while `validate_uuid`
    * with version 7 would reject it. */
  lemma ParseUuid7AcceptsEveryVersion(u: Uuid)
    ensures ParseUuid7(ToString(u)) == Ok(u)
    ensures !IsRfcVersion(u, 7) ==> ValidateUuid(UuidValue(u), 7).Err?
  {
    ParseToString(u);
  }
}
