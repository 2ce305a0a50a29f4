/**
 * The verifyPurchase endpoint after its transport shell: authentication
 * outcome, field validation, dispatch by platform, the storefront call and
 * the entitlement sync it triggers.
 */
module Endpoint {
  import opened Common
  import opened AppleReceipt
  import opened PlayBilling
  import opened PairStore

  /**
   * What verifyFirebaseAuth yields: no usable bearer token (it returns null),
   * a token the identity service rejects (verifyIdToken throws), or the
   * caller's uid.
   */
  datatype Caller = NoToken | TokenRejected | Authenticated(uid: Uid)

  /** The request body; an absent or empty field is "". */
  datatype PurchaseRequest = PurchaseRequest(platform: string, productId: string, verificationData: string, verificationSource: string)

  /** The configured secrets; a missing one is "". */
  datatype Config = Config(appleSharedSecret: string, androidPackageName: string, googleServiceAccountJson: string)

  /**
   * What the storefronts answer to this request's payload: the App Store
   * production and sandbox endpoints, and the subscription expiry the Play
   * publisher API reports. An answer matters only if its call is issued.
   */
  datatype Storefronts = Storefronts(appleProduction: AppleResponse, appleSandbox: AppleResponse, androidExpiryMs: Millis)

  /** The JSON reply. */
  datatype Reply =
    | ErrorReply(httpStatus: nat, error: string)                        // {active: false, error}
    | AppleStatusReply(appleStatus: int)                                // 200 {active: false, status}
    | AppleReply(entitlement: Entitlement, verificationSource: string) // 200, status "active"
    | AndroidReply(entitlement: Entitlement, status: string)           // 200, status "active" or "expired"

  /** An outbound storefront call. */
  datatype Call = AppleCall(endpoint: AppleEndpoint) | PlayCall

  /** The reply, the storefront calls issued in order, and the `isPlus` flag synced for the caller, if any. */
  datatype Outcome = Outcome(reply: Reply, calls: seq<Call>, grant: Option<bool>)

  function HttpStatus(r: Reply): nat
  {
    if r.ErrorReply? then r.httpStatus else 200
  }

  /** The `active` field of the reply. */
  function ReplyActive(r: Reply): bool
  {
    match r
    case ErrorReply(_, _) => false
    case AppleStatusReply(_) => false
    case AppleReply(e, _) => e.active
    case AndroidReply(e, _) => e.active
  }

  function AppleCalls(endpoints: seq<AppleEndpoint>): (calls: seq<Call>)
    ensures |calls| == |endpoints|
    ensures forall i :: 0 <= i < |endpoints| ==> calls[i] == AppleCall(endpoints[i])
  {
    seq(|endpoints|, i requires 0 <= i < |endpoints| => AppleCall(endpoints[i]))
  }

  /**
   * The decision of verifyPurchase for a POST request. Every 200 reply that
   * carries an entitlement comes with a sync of exactly its `active` flag;
   * every other reply syncs nothing.
   */
  function Decide(caller: Caller, req: PurchaseRequest, config: Config, answers: Storefronts, now: Millis): (o: Outcome)
    ensures o.grant.Some? <==> o.reply.AppleReply? || o.reply.AndroidReply?
    ensures o.grant.Some? ==> caller.Authenticated? && o.grant.value == ReplyActive(o.reply)
    ensures HttpStatus(o.reply) != 200 ==> o.calls == [] && !ReplyActive(o.reply)
  {
    match caller
    case NoToken => Outcome(ErrorReply(401, "Auth token required"), [], None)
    case TokenRejected => Outcome(ErrorReply(500, "Internal error"), [], None)
    case Authenticated(_) =>
      if req.platform == "" || req.productId == "" || req.verificationData == "" then
        Outcome(ErrorReply(400, "Missing required fields"), [], None)
      else if req.platform == "ios" then
        if config.appleSharedSecret == "" then
          Outcome(ErrorReply(500, "APPLE_SHARED_SECRET not configured"), [], None)
        else
          var v := VerifyAppleReceipt(answers.appleProduction, answers.appleSandbox);
          if v.response.status != 0 then
            Outcome(AppleStatusReply(v.response.status), AppleCalls(v.calls), None)
          else
            var e := ResolveAppleEntitlement(v.response, req.productId, now);
            Outcome(AppleReply(e, req.verificationSource), AppleCalls(v.calls), Some(e.active))
      else if req.platform == "android" then
        if config.androidPackageName == "" || config.googleServiceAccountJson == "" then
          Outcome(ErrorReply(500, "Android verification not configured"), [], None)
        else
          var e := AndroidEntitlement(answers.androidExpiryMs, req.productId, now);
          Outcome(AndroidReply(e, if e.active then "active" else "expired"), [PlayCall], Some(e.active))
      else
        Outcome(ErrorReply(400, "Unsupported platform"), [], None)
  }

  /** The request is complete: platform, product id and verification data are all present. */
  predicate HasRequiredFields(req: PurchaseRequest)
  {
    req.platform != "" && req.productId != "" && req.verificationData != ""
  }

  /**
   * The early exits, in the order the code checks them: no token is 401, a
   * rejected token 500, a missing field 400, a missing App Store or Play
   * configuration 500, an unknown platform 400. None of them calls a
   * storefront or syncs anything.
   */
  lemma EarlyExits(caller: Caller, req: PurchaseRequest, config: Config, answers: Storefronts, now: Millis)
    ensures var o := Decide(caller, req, config, answers, now);
            && (caller == NoToken ==> o == Outcome(ErrorReply(401, "Auth token required"), [], None))
            && (caller == TokenRejected ==> o == Outcome(ErrorReply(500, "Internal error"), [], None))
            && ((caller.Authenticated? && !HasRequiredFields(req))
                  ==> o == Outcome(ErrorReply(400, "Missing required fields"), [], None))
            && ((caller.Authenticated? && HasRequiredFields(req) && req.platform == "ios" && config.appleSharedSecret == "")
                  ==> o == Outcome(ErrorReply(500, "APPLE_SHARED_SECRET not configured"), [], None))
            && ((caller.Authenticated? && HasRequiredFields(req) && req.platform == "android"
                 && (config.androidPackageName == "" || config.googleServiceAccountJson == ""))
                  ==> o == Outcome(ErrorReply(500, "Android verification not configured"), [], None))
            && ((caller.Authenticated? && HasRequiredFields(req) && req.platform != "ios" && req.platform != "android")
                  ==> o == Outcome(ErrorReply(400, "Unsupported platform"), [], None))
  {
  }

  /**
   * The App Store branch: production is called first, the sandbox only after
   * status 21007; a non-zero final status is a 200 reply with active false
   * and no sync; status 0 syncs the normalised entitlement's flag.
   */
  lemma AppleBranch(uid: Uid, req: PurchaseRequest, config: Config, answers: Storefronts, now: Millis)
    requires HasRequiredFields(req) && req.platform == "ios" && config.appleSharedSecret != ""
    ensures var o := Decide(Authenticated(uid), req, config, answers, now);
            var redirected := answers.appleProduction.status == SandboxReceiptStatus;
            var final := if redirected then answers.appleSandbox else answers.appleProduction;
            && o.calls == (if redirected then [AppleCall(Production), AppleCall(Sandbox)] else [AppleCall(Production)])
            && (final.status != 0 ==> o.reply == AppleStatusReply(final.status) && o.grant == None)
            && (final.status == 0 ==>
                  var e := ResolveAppleEntitlement(final, req.productId, now);
                  && o.reply == AppleReply(e, req.verificationSource)
                  && o.grant == Some(e.active)
                  && o.reply.entitlement.productId in {None, Some(req.productId)})
  {
    var v := VerifyAppleReceipt(answers.appleProduction, answers.appleSandbox);
    var o := Decide(Authenticated(uid), req, config, answers, now);
    var calls := AppleCalls(v.calls);
    assert calls == if v.calls == [Production] then [AppleCall(Production)] else [AppleCall(Production), AppleCall(Sandbox)];
    if v.response.status != 0 {
      assert o == Outcome(AppleStatusReply(v.response.status), calls, None);
    } else {
      var e := ResolveAppleEntitlement(v.response, req.productId, now);
      ResolvedProductIsRequested(v.response, req.productId, now);
      assert o == Outcome(AppleReply(e, req.verificationSource), calls, Some(e.active));
    }
  }

  /**
   * A caller is granted Plus only on evidence that is current at `now`: an
   * App Store transaction for the requested product that expires after
   * `now` and was never cancelled, or a Play subscription that expires
   * after `now`.
   */
  lemma GrantNeedsCurrentPurchase(caller: Caller, req: PurchaseRequest, config: Config, answers: Storefronts, now: Millis)
    requires Decide(caller, req, config, answers, now).grant == Some(true)
    ensures req.platform == "ios" || req.platform == "android"
    ensures req.platform == "ios" ==>
              var final := VerifyAppleReceipt(answers.appleProduction, answers.appleSandbox).response;
              final.status == 0
              && exists t :: t in TransactionList(final) && t.productId == req.productId
                             && t.expiresMs > now && t.cancellationMs == 0
    ensures req.platform == "android" ==> answers.androidExpiryMs > now
  {
    if req.platform == "ios" {
      var final := VerifyAppleReceipt(answers.appleProduction, answers.appleSandbox).response;
      ActiveHasUnexpiredRecord(final, req.productId, now);
    }
  }

  /**
   * The Play branch: one publisher call; the reply carries the Android
   * entitlement, the caller is synced to exactly `expiry > now`, and the
   * status text is "expired" exactly when the subscription is not active.
   */
  lemma AndroidStatusText(uid: Uid, req: PurchaseRequest, config: Config, answers: Storefronts, now: Millis)
    requires HasRequiredFields(req) && req.platform == "android"
    requires config.androidPackageName != "" && config.googleServiceAccountJson != ""
    ensures var o := Decide(Authenticated(uid), req, config, answers, now);
            && o.calls == [PlayCall]
            && o.reply.AndroidReply?
            && o.reply.entitlement == AndroidEntitlement(answers.androidExpiryMs, req.productId, now)
            && o.grant == Some(answers.androidExpiryMs > now)
            && (o.reply.status == "expired" <==> answers.androidExpiryMs <= now)
            && (o.reply.status == "active" <==> answers.androidExpiryMs > now)
  {
  }

  /**
   * verifyPurchase against the store: decide, then sync the caller's flag
   * (which may reconcile the caller's pair). `order` is the lookup order of
   * that pair's members, `stamp` the server timestamp of the writes.
   */
  method VerifyPurchase(store: Store, caller: Caller, req: PurchaseRequest, config: Config,
                        answers: Storefronts, now: Millis, order: seq<Uid>, stamp: ServerStamp)
    returns (reply: Reply)
    requires var o := Decide(caller, req, config, answers, now);
             o.grant.Some? ==> SyncOrderFits(Snapshot(store.users, store.pairs), caller.uid, o.grant.value, stamp, order)
    modifies store
    ensures var o := Decide(caller, req, config, answers, now);
            && reply == o.reply
            && (o.grant.None? ==> store.users == old(store.users) && store.pairs == old(store.pairs))
            && (o.grant.Some? ==>
                  Snapshot(store.users, store.pairs)
                  == SyncStep(Snapshot(old(store.users), old(store.pairs)), caller.uid, o.grant.value, order, stamp).store)
  {
    var o := Decide(caller, req, config, answers, now);
    reply := o.reply;
    if o.grant.Some? {
      var _, _ := store.SyncUserEntitlement(caller.uid, o.grant.value, order, stamp);
    }
  }
}
