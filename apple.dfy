/**
 * The App Store side: the production/sandbox fallback of the receipt
 * verification call and the normaliser that turns a verified receipt into
 * one entitlement fact.
 */
module AppleReceipt {
  import opened Common

  /**
   * One entry of `latest_receipt_info` or `receipt.in_app`, with its numeric
   * fields already parsed. An absent `product_id` is "", an absent timestamp 0.
   */
  datatype Transaction = Transaction(productId: string, expiresMs: Millis, purchaseMs: Millis, cancellationMs: Millis)

  /**
   * The JSON body of a verifyReceipt response: its `status`, the optional
   * `latest_receipt_info` list and the optional `receipt.in_app` list
   * (None when `receipt` or its `in_app` is absent).
   */
  datatype AppleResponse = AppleResponse(status: int, latestReceiptInfo: Option<seq<Transaction>>, inApp: Option<seq<Transaction>>)

  /** The status by which production says "this receipt belongs to the sandbox". */
  const SandboxReceiptStatus := 21007

  /** The two verification endpoints. */
  datatype AppleEndpoint = Production | Sandbox

  /** The calls issued, in order, and the response handed back. */
  datatype AppleVerification = AppleVerification(calls: seq<AppleEndpoint>, response: AppleResponse)

  /**
   * verifyAppleReceipt: `production` is what the production endpoint answers,
   * `sandbox` what the sandbox endpoint would answer to the same payload.
   * Production is always asked first; the sandbox is asked once, and only on
   * status 21007, and then its answer replaces production's.
   */
  function VerifyAppleReceipt(production: AppleResponse, sandbox: AppleResponse): (v: AppleVerification)
    ensures 1 <= |v.calls| <= 2 && v.calls[0] == Production
    ensures Sandbox in v.calls <==> production.status == SandboxReceiptStatus
    ensures forall i :: 1 <= i < |v.calls| ==> v.calls[i] == Sandbox
    ensures production.status == SandboxReceiptStatus ==> v.response == sandbox
    ensures production.status != SandboxReceiptStatus ==> v.response == production
  {
    if production.status == SandboxReceiptStatus then
      AppleVerification([Production, Sandbox], sandbox)
    else
      AppleVerification([Production], production)
  }

  /** `latest_receipt_info || receipt.in_app || []`: an empty array is truthy, so Some([]) is kept. */
  function TransactionList(data: AppleResponse): seq<Transaction>
  {
    match data.latestReceiptInfo
    case Some(list) => list
    case None =>
      match data.inApp
      case Some(list) => list
      case None => []
  }

  /** Whether the product filter keeps `t`; with no requested id every record is kept. */
  predicate Keeps(productId: string, t: Transaction)
  {
    productId == "" || t.productId == productId
  }

  /** `list.filter(item => item.product_id === productId)`, in list order. */
  function Matching(list: seq<Transaction>, productId: string): (r: seq<Transaction>)
    ensures |r| <= |list|
    ensures forall i :: 0 <= i < |r| ==> Keeps(productId, r[i])
    ensures forall t :: t in r <==> t in list && Keeps(productId, t)
  {
    if list == [] then []
    else
      var rest := Matching(list[..|list| - 1], productId);
      var last := list[|list| - 1];
      assert list == list[..|list| - 1] + [last];
      if Keeps(productId, last) then rest + [last] else rest
  }

  /** `productId ? list.filter(...) : list`. */
  function Candidates(list: seq<Transaction>, productId: string): seq<Transaction>
  {
    if productId == "" then list else Matching(list, productId)
  }

  /** The reduction key `expires_date_ms || purchase_date_ms || 0`. */
  function Key(t: Transaction): Millis
  {
    if t.expiresMs != 0 then t.expiresMs else t.purchaseMs
  }

  /**
   * `filtered.reduce((a, b) => bMs > aMs ? b : a)`: a left fold seeded with
   * the first record that replaces the running choice only on a strictly
   * larger key.
   */
  function Latest(s: seq<Transaction>): Transaction
    requires |s| > 0
  {
    if |s| == 1 then s[0]
    else
      var a := Latest(s[..|s| - 1]);
      var b := s[|s| - 1];
      if Key(b) > Key(a) then b else a
  }

  /** resolveAppleEntitlement with the clock passed in as `now`. */
  function ResolveAppleEntitlement(data: AppleResponse, productId: string, now: Millis): (e: Entitlement)
    ensures e.active ==> e.expiresAt.Some? && e.expiresAt.value.ms > now
  {
    var filtered := Candidates(TransactionList(data), productId);
    if |filtered| == 0 then Inactive
    else
      var latest := Latest(filtered);
      Entitlement(
        latest.expiresMs > now && latest.cancellationMs == 0,
        IsoOrNull(latest.expiresMs),
        if latest.productId != "" then Some(latest.productId)
        else if productId != "" then Some(productId)
        else None)
  }

  // ---------------------------------------------------------------------
  // Specification of the selection, stated over the unfiltered list
  // ---------------------------------------------------------------------

  /**
   * Record `i` of `list` is the one the normaliser must pick: it survives the
   * filter, no surviving record has a larger key, and every surviving record
   * before it has a strictly smaller key (ties go to the earliest).
   */
  ghost predicate IsSelected(list: seq<Transaction>, productId: string, i: int)
  {
    && 0 <= i < |list|
    && Keeps(productId, list[i])
    && (forall j :: 0 <= j < |list| && Keeps(productId, list[j]) ==> Key(list[j]) <= Key(list[i]))
    && (forall j :: 0 <= j < i && Keeps(productId, list[j]) ==> Key(list[j]) < Key(list[i]))
  }

  lemma {:induction false} MatchingEverything(list: seq<Transaction>)
    ensures Matching(list, "") == list
  {
    if list != [] {
      MatchingEverything(list[..|list| - 1]);
      assert list == list[..|list| - 1] + [list[|list| - 1]];
    }
  }

  lemma CandidatesAreMatching(list: seq<Transaction>, productId: string)
    ensures Candidates(list, productId) == Matching(list, productId)
  {
    if productId == "" {
      MatchingEverything(list);
    }
  }

  lemma MatchingSnoc(prefix: seq<Transaction>, last: Transaction, productId: string)
    ensures Matching(prefix + [last], productId)
         == if Keeps(productId, last) then Matching(prefix, productId) + [last] else Matching(prefix, productId)
  {
  }

  /** One fold step: an appended surviving record with a strictly larger key takes over, anything else leaves the choice alone. */
  lemma SelectedAfterStep(prefix: seq<Transaction>, last: Transaction, productId: string, i: int)
    requires IsSelected(prefix, productId, i)
    ensures var list := prefix + [last];
            if Keeps(productId, last) && Key(last) > Key(prefix[i])
            then IsSelected(list, productId, |prefix|)
            else IsSelected(list, productId, i)
  {
  }

  lemma FirstSurvivor(prefix: seq<Transaction>, last: Transaction, productId: string)
    requires Matching(prefix, productId) == []
    requires Keeps(productId, last)
    ensures IsSelected(prefix + [last], productId, |prefix|)
  {
  }

  /** The strict-`>` reduction over the filtered list picks the first maximal record of the whole list. */
  lemma {:induction false} LatestIsFirstMaximum(list: seq<Transaction>, productId: string)
    requires Matching(list, productId) != []
    ensures exists i :: IsSelected(list, productId, i) && Latest(Matching(list, productId)) == list[i]
  {
    var n := |list|;
    var prefix := list[..n - 1];
    var last := list[n - 1];
    assert list == prefix + [last];
    var m := Matching(prefix, productId);
    MatchingSnoc(prefix, last, productId);
    if m == [] {
      assert Keeps(productId, last);
      FirstSurvivor(prefix, last, productId);
      assert Latest(Matching(list, productId)) == list[n - 1];
    } else {
      LatestIsFirstMaximum(prefix, productId);
      var i :| IsSelected(prefix, productId, i) && Latest(m) == prefix[i];
      SelectedAfterStep(prefix, last, productId, i);
      if Keeps(productId, last) {
        var s := m + [last];
        assert s[..|s| - 1] == m;
        assert Latest(Matching(list, productId)) == if Key(last) > Key(prefix[i]) then list[n - 1] else list[i];
      } else {
        assert Latest(Matching(list, productId)) == list[i];
      }
    }
  }

  /**
   * Where the transactions come from: `latest_receipt_info` whenever it is
   * present, even as an empty array, which then hides `receipt.in_app` and
   * makes the answer inactive; `receipt.in_app` only when it is absent; no
   * transactions when both are absent.
   */
  lemma TransactionListChoice(data: AppleResponse, productId: string, now: Millis)
    ensures data.latestReceiptInfo.Some? ==> TransactionList(data) == data.latestReceiptInfo.value
    ensures data.latestReceiptInfo.None? && data.inApp.Some? ==> TransactionList(data) == data.inApp.value
    ensures data.latestReceiptInfo.None? && data.inApp.None? ==> TransactionList(data) == []
    ensures data.latestReceiptInfo == Some([]) ==> ResolveAppleEntitlement(data, productId, now) == Inactive
  {
    if data.latestReceiptInfo == Some([]) {
      NoMatchIsInactive(data, productId, now);
    }
  }

  /**
   * When no record survives the filter, the answer is the fixed inactive
   * value, whatever else the response holds.
   */
  lemma NoMatchIsInactive(data: AppleResponse, productId: string, now: Millis)
    requires forall t :: t in TransactionList(data) ==> !Keeps(productId, t)
    ensures ResolveAppleEntitlement(data, productId, now) == Inactive
  {
    CandidatesAreMatching(TransactionList(data), productId);
  }

  /**
   * When some record survives the filter, the answer is derived from the
   * selected record: active iff it expires after `now` and was never
   * cancelled, `expiresAt` null iff its expiry is absent, and the product id
   * falls back from the record's to the requested one to null.
   */
  lemma ResolvedFromSelected(data: AppleResponse, productId: string, now: Millis)
    requires exists t :: t in TransactionList(data) && Keeps(productId, t)
    ensures var list := TransactionList(data);
            var e := ResolveAppleEntitlement(data, productId, now);
            exists i :: IsSelected(list, productId, i)
              && (e.active <==> list[i].expiresMs > now && list[i].cancellationMs == 0)
              && (e.expiresAt.None? <==> list[i].expiresMs == 0)
              && (e.expiresAt.Some? ==> e.expiresAt.value.ms == list[i].expiresMs)
              && e.productId == (if list[i].productId != "" then Some(list[i].productId)
                                 else if productId != "" then Some(productId) else None)
  {
    var list := TransactionList(data);
    CandidatesAreMatching(list, productId);
    var t :| t in list && Keeps(productId, t);
    assert t in Matching(list, productId);
    LatestIsFirstMaximum(list, productId);
  }

  /**
   * With a requested product id, the reported id is that id or null, and it
   * is that id exactly when some transaction carries it.
   */
  lemma ResolvedProductIsRequested(data: AppleResponse, productId: string, now: Millis)
    requires productId != ""
    ensures var e := ResolveAppleEntitlement(data, productId, now);
            e.productId == None || e.productId == Some(productId)
    ensures ResolveAppleEntitlement(data, productId, now).productId == Some(productId)
            <==> exists t :: t in TransactionList(data) && t.productId == productId
  {
    var list := TransactionList(data);
    var filtered := Candidates(list, productId);
    if |filtered| > 0 {
      assert Latest(filtered) in filtered by { LatestInList(filtered); }
      assert Latest(filtered) in list;
    } else {
      forall t | t in list ensures t.productId != productId {
        assert t !in filtered;
      }
    }
  }

  lemma {:induction false} LatestInList(s: seq<Transaction>)
    requires |s| > 0
    ensures Latest(s) in s
  {
    if |s| > 1 {
      LatestInList(s[..|s| - 1]);
    }
  }

  /** An active answer is backed by a surviving record that expires after `now` and is not cancelled. */
  lemma ActiveHasUnexpiredRecord(data: AppleResponse, productId: string, now: Millis)
    requires ResolveAppleEntitlement(data, productId, now).active
    ensures exists t :: t in TransactionList(data) && Keeps(productId, t)
                        && t.expiresMs > now && t.cancellationMs == 0
  {
    var list := TransactionList(data);
    var filtered := Candidates(list, productId);
    CandidatesAreMatching(list, productId);
    LatestInList(filtered);
    assert Latest(filtered) in list;
  }
}
