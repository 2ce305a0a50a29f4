/** The Google Play side: the activity rule applied to a subscription's expiry. */
module PlayBilling {
  import opened Common

  /**
   * `Number(result.expiryTimeMillis || 0) > Date.now()`: a subscription is
   * active only while its expiry lies strictly in the future. No cancellation
   * or refund signal is consulted.
   */
  function AndroidActive(expiryMs: Millis, now: Millis): (active: bool)
  {
    expiryMs > now
  }

  /**
   * The entitlement returned for an Android purchase: the activity rule, the
   * expiry in ISO form (null when absent) and the requested product id.
   */
  function AndroidEntitlement(expiryMs: Millis, productId: string, now: Millis): (e: Entitlement)
    ensures e.active <==> expiryMs > now
    ensures e.expiresAt.None? <==> expiryMs == 0
    ensures e.expiresAt.Some? ==> e.expiresAt.value.ms == expiryMs
    ensures e.productId == Some(productId)
  {
    Entitlement(AndroidActive(expiryMs, now), IsoOrNull(expiryMs), Some(productId))
  }

  /**
   * The boundary is exclusive, an absent expiry is never active, and a
   * subscription active at some instant was active at every earlier one.
   */
  lemma AndroidActivityRule(expiryMs: Millis, earlier: Millis, now: Millis)
    ensures !AndroidActive(now, now)
    ensures !AndroidActive(0, now)
    ensures earlier <= now && AndroidActive(expiryMs, now) ==> AndroidActive(expiryMs, earlier)
    ensures AndroidActive(expiryMs, now) <==> now < expiryMs
  {
  }
}
