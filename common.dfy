/** Values shared by the receipt normalisers, the pair store and the endpoint. */
module Common {

  datatype Option<+T> = None | Some(value: T)

  /** Milliseconds since the epoch; a timestamp field that is absent reads as 0. */
  type Millis = nat

  /** The text `new Date(ms).toISOString()`, kept symbolic: the model never inspects its characters. */
  datatype IsoTimestamp = IsoOf(ms: Millis)

  /** The value the document store substitutes for `FieldValue.serverTimestamp()`. */
  type ServerStamp = nat

  /** The canonical entitlement fact returned to the caller. */
  datatype Entitlement = Entitlement(active: bool, expiresAt: Option<IsoTimestamp>, productId: Option<string>)

  /** The fixed answer when no transaction is relevant. */
  const Inactive := Entitlement(false, None, None)

  /** `ms ? new Date(ms).toISOString() : null`: a zero (absent) timestamp has no ISO form. */
  function IsoOrNull(ms: Millis): (r: Option<IsoTimestamp>)
    ensures r.None? <==> ms == 0
    ensures r.Some? ==> r.value.ms == ms
  {
    if ms != 0 then Some(IsoOf(ms)) else None
  }
}
