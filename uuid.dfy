/**
 * Identifiers of stored items. A `uuid.UUID` is sixteen bytes; it is modelled by its
 * canonical text form (lower-case hex in groups 8-4-4-4-12), so that `id.String()` is
 * the identity and two identifiers are equal exactly when their texts are.
 */
module Uuids {

  predicate IsLowerHex(c: char) {
    ('0' <= c <= '9') || ('a' <= c <= 'f')
  }

  /** The 36-character form that `uuid.UUID.String()` produces. */
  predicate IsCanonical(s: string) {
    && |s| == 36
    && forall i :: 0 <= i < 36 ==>
         if i == 8 || i == 13 || i == 18 || i == 23 then s[i] == '-' else IsLowerHex(s[i])
  }

  type Uuid = s: string | IsCanonical(s) witness "00000000-0000-0000-0000-000000000000"

  /** `uuid.Nil`, the zero value of a `uuid.UUID` field. */
  const Nil: Uuid := "00000000-0000-0000-0000-000000000000"
}
