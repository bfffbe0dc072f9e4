/**
 * The `normalizeId` helper the session and message controllers both define
 * (src/controllers/session.controller.js:9, src/controllers/message.controller.js:5).
 */
module Requests {
  import opened JsStrings
  import opened SessionModel

  /** `String(value).trim().toLowerCase()`; route parameters are always strings. */
  function NormalizeId(value: string): string {
    Lower(Trim(value))
  }

  /** The controllers' normal form is the form the session schema stores. */
  lemma NormalizeIdIsCanon(value: string)
    ensures NormalizeId(value) == Canon(value)
    ensures Canon(NormalizeId(value)) == NormalizeId(value)
    ensures Lower(NormalizeId(value)) == NormalizeId(value)
  {
    TrimLowerCommute(value);
    CanonIdempotent(value);
    LowerIdempotent(Trim(value));
  }

  lemma NormalizeIdIdempotent(value: string)
    ensures NormalizeId(NormalizeId(value)) == NormalizeId(value)
  {
    NormalizeIdIsCanon(value);
    NormalizeIdIsCanon(NormalizeId(value));
  }
}
