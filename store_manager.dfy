/**
 * Entitlement resolution on the client (ios/KinexFit/Store/StoreManager.swift):
 * the verification gate, the active-product set computed from the current
 * entitlements, tier precedence, the purchase flow and the per-event body of
 * the transaction-update listener.
 *
 * Calls into StoreKit whose only effect is on the platform (`transaction.finish()`)
 * and the refresh of the product set are recorded, in order, in `trace`.
 */
module StoreManager {
  import opened Wrappers
  import opened Text
  import opened UserModel
  import opened ApiModel
  import opened StoreKitTypes
  import opened ProductIDs
  import opened LocalStore
  import opened UserRepository
  import opened PurchaseValidator

  /** `checkVerified(_:)`: the signed value when the platform's check passed. */
  function CheckVerified<T>(v: VerificationResult<T>): (r: Result<T, StoreError>)
    ensures v.Unverified? <==> r.Failure?
    ensures r.Failure? ==> r.error == FailedVerification
    ensures v.Verified? ==> r == Success(v.signed)
  {
    match v
    case Unverified(_) => Failure(FailedVerification)
    case Verified(t) => Success(t)
  }

  /** An entitlement counts as active when it is verified and carries no revocation date. */
  predicate IsActiveEntitlement(e: VerificationResult<Transaction>) {
    e.Verified? && e.signed.revocationDate.None?
  }

  /** The product identifiers of the active entitlements. */
  function ActiveProductIDs(entitlements: seq<VerificationResult<Transaction>>): (ids: set<string>)
    ensures forall i | 0 <= i < |entitlements| && IsActiveEntitlement(entitlements[i]) :: entitlements[i].signed.productID in ids
    ensures entitlements == [] ==> ids == {}
  {
    set i | 0 <= i < |entitlements| && IsActiveEntitlement(entitlements[i]) :: entitlements[i].signed.productID
  }

  /** `currentSubscription`: the highest-tier product among the purchased identifiers. */
  function CurrentSubscription(purchased: set<string>): (p: Option<ProductID>)
    ensures p.None? <==> forall q :: RawValue(q) !in purchased
    ensures p.Some? ==> RawValue(p.value) in purchased
    ensures p.Some? ==> forall q :: RawValue(q) in purchased ==> TierRank(Tier(q)) <= TierRank(Tier(p.value))
  {
    if RawValue(EliteMonthly) in purchased then Some(EliteMonthly)
    else if RawValue(ProMonthly) in purchased then Some(ProMonthly)
    else if RawValue(CoreMonthly) in purchased then Some(CoreMonthly)
    else None
  }

  /** `hasActiveSubscription`. */
  function HasActiveSubscription(purchased: set<string>): (b: bool)
    ensures b <==> exists q :: RawValue(q) in purchased
  {
    CurrentSubscription(purchased) != None
  }

  /** `subscriptionTier`: the tier of the current subscription, free without one. */
  function SubscriptionTierOf(purchased: set<string>): (t: SubscriptionTier)
    ensures t == Free <==> !HasActiveSubscription(purchased)
    ensures forall q :: RawValue(q) in purchased ==> TierRank(Tier(q)) <= TierRank(t)
    ensures t != Free ==> exists q :: RawValue(q) in purchased && Tier(q) == t
  {
    match CurrentSubscription(purchased)
    case Some(p) => TierIsPaidAndInjective(p, p); Tier(p)
    case None => Free
  }

  /** `Product.PurchaseResult`, `@unknown default` included. */
  datatype PurchaseResult =
    | PurchaseSuccess(verification: VerificationResult<Transaction>)
    | UserCancelled
    | Pending
    | UnknownResult

  /** What `purchase(_:)` throws: a store error, a validation error, or StoreKit's own error. */
  datatype PurchaseError = StoreFailure(error: StoreError) | ValidationFailure(cause: ValidationError) | StoreKitFailure(description: string)

  /** Calls recorded in order: the validation of a transaction, a refresh of the product set, `finish()`. */
  datatype StoreStep = ValidateCalled(transactionId: nat) | ProductsRefreshed(products: set<string>) | Finished(transactionId: nat)

  /** What StoreKit and the backend do for one event of `Transaction.updates`. */
  datatype UpdateEvent = UpdateEvent(
    result: VerificationResult<Transaction>,
    receipt: ReceiptFile,
    reply: Result<ValidateReceiptResponse, SendError>,
    entitlements: seq<VerificationResult<Transaction>>,
    now: int)

  /** An event whose transaction is verified and validated, so its pipeline runs to `finish()`. */
  predicate EventSucceeds(e: UpdateEvent) {
    e.result.Verified? && ValidationOutcome(e.receipt, e.reply).Success?
  }

  /** The calls the listener's loop body makes for one event. */
  function EventSteps(e: UpdateEvent): (steps: seq<StoreStep>)
    ensures e.result.Unverified? <==> steps == []
  {
    match e.result
    case Unverified(_) => []
    case Verified(t) =>
      if ValidationOutcome(e.receipt, e.reply).Success? then
        [ValidateCalled(t.id), ProductsRefreshed(ActiveProductIDs(e.entitlements)), Finished(t.id)]
      else [ValidateCalled(t.id)]
  }

  function EventsSteps(events: seq<UpdateEvent>): seq<StoreStep> {
    if events == [] then [] else EventsSteps(events[..|events| - 1]) + EventSteps(events[|events| - 1])
  }

  /** The validation request one event sends: only a verified one, and only when its receipt is obtained. */
  function EventRequests(e: UpdateEvent): seq<ValidateReceiptRequest> {
    if e.result.Verified? then SentBy(e.result.signed, e.receipt) else []
  }

  /** The validation requests the listener sends. */
  function EventsRequests(events: seq<UpdateEvent>): seq<ValidateReceiptRequest> {
    if events == [] then [] else EventsRequests(events[..|events| - 1]) + EventRequests(events[|events| - 1])
  }

  /** The cached `users` rows after one event: a verified event's validation writes them. */
  function RowsAfterEvent(rows: seq<UserRow>, e: UpdateEvent): seq<UserRow> {
    if e.result.Verified? then RowsAfterValidation(rows, e.receipt, e.reply, e.now) else rows
  }

  /** The cached `users` rows after the listener handled `events`. */
  function RowsAfterEvents(rows: seq<UserRow>, events: seq<UpdateEvent>): (r: seq<UserRow>)
    ensures DistinctIds(rows) ==> DistinctIds(r)
  {
    if events == [] then rows
    else RowsAfterEvent(RowsAfterEvents(rows, events[..|events| - 1]), events[|events| - 1])
  }

  /** The purchased set after one event: refreshed when the event succeeds. */
  function PurchasedAfterEvent(purchased: set<string>, e: UpdateEvent): set<string> {
    if EventSucceeds(e) then ActiveProductIDs(e.entitlements) else purchased
  }

  /** The purchased set after the listener: the last successful event's refresh, if any. */
  function PurchasedAfterEvents(purchased: set<string>, events: seq<UpdateEvent>): set<string> {
    if events == [] then purchased
    else PurchasedAfterEvent(PurchasedAfterEvents(purchased, events[..|events| - 1]), events[|events| - 1])
  }

  class StoreManager {
    var purchasedProductIDs: set<string>
    const purchaseValidator: PurchaseValidator
    /** The recorded calls, oldest first. */
    var trace: seq<StoreStep>

    constructor (purchaseValidator: PurchaseValidator)
      ensures this.purchaseValidator == purchaseValidator && purchasedProductIDs == {} && trace == []
    {
      this.purchaseValidator := purchaseValidator;
      purchasedProductIDs := {};
      trace := [];
    }

    /**
     * `updatePurchasedProducts()`: one pass over the current entitlements,
     * skipping unverified ones, then a wholesale replacement of the field.
     */
    method UpdatePurchasedProducts(entitlements: seq<VerificationResult<Transaction>>)
      modifies this`purchasedProductIDs, this`trace
      ensures purchasedProductIDs == ActiveProductIDs(entitlements)
      ensures trace == old(trace) + [ProductsRefreshed(ActiveProductIDs(entitlements))]
    {
      var purchasedIDs: set<string> := {};
      var k := 0;
      while k < |entitlements|
        invariant 0 <= k <= |entitlements|
        invariant purchasedIDs == ActiveProductIDs(entitlements[..k])
        invariant trace == old(trace)
      {
        var verified := CheckVerified(entitlements[k]);
        if verified.Success? {
          if verified.value.revocationDate.None? {
            purchasedIDs := purchasedIDs + {verified.value.productID};
          }
        }
        ActiveProductIDsStep(entitlements, k);
        k := k + 1;
      }
      assert entitlements[..k] == entitlements;
      assert purchasedIDs == ActiveProductIDs(entitlements);
      purchasedProductIDs := purchasedIDs;
      trace := trace + [ProductsRefreshed(purchasedIDs)];
    }

    /**
     * `purchase(_:)` once StoreKit's purchase sheet has answered `outcome`
     * (a thrown StoreKit error is a `Failure`): verify, validate, refresh, finish.
     */
    method Purchase(outcome: Result<PurchaseResult, string>, receipt: ReceiptFile,
                    reply: Result<ValidateReceiptResponse, SendError>,
                    entitlements: seq<VerificationResult<Transaction>>, now: int)
      returns (r: Result<Option<Transaction>, PurchaseError>)
      requires purchaseValidator.userRepository.database.Valid()
      modifies this`purchasedProductIDs, this`trace, purchaseValidator`sent, purchaseValidator.userRepository.database`users
      ensures purchaseValidator.userRepository.database.Valid()
      ensures outcome.Failure? ==> r == Failure(StoreKitFailure(outcome.error))
      ensures outcome == Success(UserCancelled) ==> r == Failure(StoreFailure(PurchaseCancelled))
      ensures outcome == Success(Pending) ==> r == Success(None)
      ensures outcome == Success(UnknownResult) ==> r == Failure(StoreFailure(UnknownError))
      ensures outcome.Success? && outcome.value.PurchaseSuccess? && outcome.value.verification.Unverified? ==>
                r == Failure(StoreFailure(FailedVerification))
      ensures !(outcome.Success? && outcome.value.PurchaseSuccess? && outcome.value.verification.Verified?) ==>
                && trace == old(trace) && purchasedProductIDs == old(purchasedProductIDs)
                && purchaseValidator.sent == old(purchaseValidator.sent)
                && purchaseValidator.userRepository.database.users == old(purchaseValidator.userRepository.database.users)
      ensures outcome.Success? && outcome.value.PurchaseSuccess? && outcome.value.verification.Verified? ==>
                var t := outcome.value.verification.signed;
                var e := UpdateEvent(outcome.value.verification, receipt, reply, entitlements, now);
                && trace == old(trace) + EventSteps(e)
                && purchaseValidator.sent == old(purchaseValidator.sent) + SentBy(t, receipt)
                && purchaseValidator.userRepository.database.users
                   == RowsAfterValidation(old(purchaseValidator.userRepository.database.users), receipt, reply, now)
                && (r.Success? <==> EventSucceeds(e))
                && (r.Success? ==> r.value == Some(t) && purchasedProductIDs == ActiveProductIDs(entitlements))
                && (r.Failure? ==> r.error == ValidationFailure(ValidationOutcome(receipt, reply).error)
                                   && purchasedProductIDs == old(purchasedProductIDs))
    {
      if outcome.Failure? {
        return Failure(StoreKitFailure(outcome.error));
      }
      match outcome.value
      case PurchaseSuccess(verification) =>
        var checked := CheckVerified(verification);
        if checked.Failure? {
          return Failure(StoreFailure(checked.error));
        }
        var transaction := checked.value;
        trace := trace + [ValidateCalled(transaction.id)];
        var validated := purchaseValidator.Validate(transaction, receipt, reply, now);
        if validated.Failure? {
          return Failure(ValidationFailure(validated.error));
        }
        UpdatePurchasedProducts(entitlements);
        trace := trace + [Finished(transaction.id)];
        r := Success(Some(transaction));
      case UserCancelled =>
        r := Failure(StoreFailure(PurchaseCancelled));
      case Pending =>
        r := Success(None);
      case UnknownResult =>
        r := Failure(StoreFailure(UnknownError));
    }

    /** The `do` block the listener runs for one event; its error is caught and logged by the caller. */
    method HandleTransactionUpdate(e: UpdateEvent) returns (r: Result<Unit, PurchaseError>)
      requires purchaseValidator.userRepository.database.Valid()
      modifies this`purchasedProductIDs, this`trace, purchaseValidator`sent, purchaseValidator.userRepository.database`users
      ensures purchaseValidator.userRepository.database.Valid()
      ensures r.Success? <==> EventSucceeds(e)
      ensures trace == old(trace) + EventSteps(e)
      ensures purchaseValidator.sent == old(purchaseValidator.sent) + EventRequests(e)
      ensures purchaseValidator.userRepository.database.users
              == RowsAfterEvent(old(purchaseValidator.userRepository.database.users), e)
      ensures purchasedProductIDs == PurchasedAfterEvent(old(purchasedProductIDs), e)
    {
      var checked := CheckVerified(e.result);
      if checked.Failure? {
        return Failure(StoreFailure(checked.error));
      }
      var transaction := checked.value;
      trace := trace + [ValidateCalled(transaction.id)];
      var validated := purchaseValidator.Validate(transaction, e.receipt, e.reply, e.now);
      if validated.Failure? {
        return Failure(ValidationFailure(validated.error));
      }
      UpdatePurchasedProducts(e.entitlements);
      trace := trace + [Finished(transaction.id)];
      r := Success(Unit);
    }

    /** The listener's `for await` loop over the delivered events: a failing event does not stop it. */
    method ListenForTransactions(events: seq<UpdateEvent>)
      requires purchaseValidator.userRepository.database.Valid()
      modifies this`purchasedProductIDs, this`trace, purchaseValidator`sent, purchaseValidator.userRepository.database`users
      ensures purchaseValidator.userRepository.database.Valid()
      ensures trace == old(trace) + EventsSteps(events)
      ensures purchaseValidator.sent == old(purchaseValidator.sent) + EventsRequests(events)
      ensures purchaseValidator.userRepository.database.users
              == RowsAfterEvents(old(purchaseValidator.userRepository.database.users), events)
      ensures purchasedProductIDs == PurchasedAfterEvents(old(purchasedProductIDs), events)
    {
      var k := 0;
      while k < |events|
        invariant 0 <= k <= |events|
        invariant trace == old(trace) + EventsSteps(events[..k])
        invariant purchaseValidator.sent == old(purchaseValidator.sent) + EventsRequests(events[..k])
        invariant purchaseValidator.userRepository.database.users
                  == RowsAfterEvents(old(purchaseValidator.userRepository.database.users), events[..k])
        invariant purchasedProductIDs == PurchasedAfterEvents(old(purchasedProductIDs), events[..k])
        invariant purchaseValidator.userRepository.database.Valid()
      {
        EventsPrefixStep(events, k, old(purchaseValidator.userRepository.database.users), old(purchasedProductIDs));
        var _ := HandleTransactionUpdate(events[k]);
        k := k + 1;
      }
      assert events[..k] == events;
    }
  }

  // ---------------------------------------------------------------------------
  // Properties

  /** One step of the entitlement pass: the next entry adds its product exactly when it is active. */
  lemma ActiveProductIDsStep(entitlements: seq<VerificationResult<Transaction>>, k: int)
    requires 0 <= k < |entitlements|
    ensures ActiveProductIDs(entitlements[..k + 1])
         == ActiveProductIDs(entitlements[..k])
            + (if IsActiveEntitlement(entitlements[k]) then {entitlements[k].signed.productID} else {})
  {
    var prefix, next := entitlements[..k], entitlements[..k + 1];
    assert forall i :: 0 <= i < k ==> next[i] == prefix[i];
    if IsActiveEntitlement(entitlements[k]) {
      assert next[k] == entitlements[k];
    }
  }

  /** A product is active exactly when some verified, unrevoked entitlement names it. */
  lemma ActiveProductIDsMeaning(entitlements: seq<VerificationResult<Transaction>>, id: string)
    ensures id in ActiveProductIDs(entitlements) <==>
            exists i :: 0 <= i < |entitlements| && entitlements[i].Verified?
                        && entitlements[i].signed.revocationDate.None? && entitlements[i].signed.productID == id
  {
  }

  /** An unverified entitlement is skipped without disturbing the others, wherever it stands. */
  lemma UnverifiedEntitlementSkipped(before: seq<VerificationResult<Transaction>>, t: Transaction,
                                     after: seq<VerificationResult<Transaction>>)
    ensures ActiveProductIDs(before + [Unverified(t)] + after) == ActiveProductIDs(before + after)
  {
    var all, kept := before + [Unverified(t)] + after, before + after;
    forall id | id in ActiveProductIDs(all) ensures id in ActiveProductIDs(kept) {
      var i :| 0 <= i < |all| && IsActiveEntitlement(all[i]) && all[i].signed.productID == id;
      if i < |before| { assert kept[i] == all[i]; } else { assert kept[i - 1] == all[i]; }
    }
    forall id | id in ActiveProductIDs(kept) ensures id in ActiveProductIDs(all) {
      var i :| 0 <= i < |kept| && IsActiveEntitlement(kept[i]) && kept[i].signed.productID == id;
      if i < |before| { assert all[i] == kept[i]; } else { assert all[i + 1] == kept[i]; }
    }
  }

  /**
   * Highest tier wins: with core and elite both active the tier is elite; once
   * the elite entitlement carries a revocation date it falls back to core.
   */
  lemma TierPrecedenceScenario(core: Transaction, elite: Transaction, revokedAt: int)
    requires core.productID == RawValue(CoreMonthly) && core.revocationDate.None?
    requires elite.productID == RawValue(EliteMonthly) && elite.revocationDate.None?
    ensures SubscriptionTierOf(ActiveProductIDs([Verified(core), Verified(elite)])) == Elite
    ensures SubscriptionTierOf(ActiveProductIDs([Verified(core), Verified(elite.(revocationDate := Some(revokedAt)))])) == Core
  {
    var both := [Verified(core), Verified(elite)];
    ActiveProductIDsMeaning(both, RawValue(EliteMonthly));
    assert IsActiveEntitlement(both[1]);
    var revoked := [Verified(core), Verified(elite.(revocationDate := Some(revokedAt)))];
    assert ActiveProductIDs(revoked) == {RawValue(CoreMonthly)} by {
      assert IsActiveEntitlement(revoked[0]) && !IsActiveEntitlement(revoked[1]);
    }
  }

  /** The steps of each event follow verify, validate, refresh, finish; `finish` only after a successful validation. */
  lemma EventStepsOrder(e: UpdateEvent)
    ensures EventSucceeds(e) ==>
              EventSteps(e) == [ValidateCalled(e.result.signed.id), ProductsRefreshed(ActiveProductIDs(e.entitlements)),
                                Finished(e.result.signed.id)]
    ensures !EventSucceeds(e) ==> forall s :: s in EventSteps(e) ==> !s.Finished? && !s.ProductsRefreshed?
  {
  }

  /** The spec functions over a prefix one event longer: the previous prefix, then that event. */
  lemma EventsPrefixStep(events: seq<UpdateEvent>, k: int, rows: seq<UserRow>, purchased: set<string>)
    requires 0 <= k < |events|
    ensures EventsSteps(events[..k + 1]) == EventsSteps(events[..k]) + EventSteps(events[k])
    ensures EventsRequests(events[..k + 1]) == EventsRequests(events[..k]) + EventRequests(events[k])
    ensures RowsAfterEvents(rows, events[..k + 1]) == RowsAfterEvent(RowsAfterEvents(rows, events[..k]), events[k])
    ensures PurchasedAfterEvents(purchased, events[..k + 1])
            == PurchasedAfterEvent(PurchasedAfterEvents(purchased, events[..k]), events[k])
  {
    var p := events[..k + 1];
    assert p[..|p| - 1] == events[..k];
    assert p[|p| - 1] == events[k];
  }

  /**
   * Failures are isolated: every event that verifies and validates is finished,
   * whatever the events before and after it did.
   */
  lemma {:induction false} SucceedingEventsFinished(events: seq<UpdateEvent>, i: int)
    requires 0 <= i < |events| && EventSucceeds(events[i])
    ensures Finished(events[i].result.signed.id) in EventsSteps(events)
  {
    var init := events[..|events| - 1];
    if i < |events| - 1 {
      assert init[i] == events[i];
      SucceedingEventsFinished(init, i);
    }
  }

  /** Every recorded `finish()` belongs to an event that verified and validated. */
  lemma {:induction false} FinishedOnlyAfterValidation(events: seq<UpdateEvent>, id: nat)
    requires Finished(id) in EventsSteps(events)
    ensures exists i :: 0 <= i < |events| && EventSucceeds(events[i]) && events[i].result.signed.id == id
  {
    var last := events[|events| - 1];
    var init := events[..|events| - 1];
    if Finished(id) in EventsSteps(init) {
      FinishedOnlyAfterValidation(init, id);
      var i :| 0 <= i < |init| && EventSucceeds(init[i]) && init[i].result.signed.id == id;
      assert events[i] == init[i];
    } else {
      assert Finished(id) in EventSteps(last);
      assert events[|events| - 1] == last;
    }
  }

  /** Verification precedes validation: every request sent belongs to a verified event's transaction. */
  lemma {:induction false} RequestsOnlyForVerified(events: seq<UpdateEvent>, req: ValidateReceiptRequest)
    requires req in EventsRequests(events)
    ensures exists i :: 0 <= i < |events| && events[i].result.Verified? && events[i].receipt.Present?
                        && req == RequestFor(events[i].result.signed, events[i].receipt.base64)
  {
    var last := events[|events| - 1];
    var init := events[..|events| - 1];
    if req in EventsRequests(init) {
      RequestsOnlyForVerified(init, req);
      var i :| 0 <= i < |init| && init[i].result.Verified? && init[i].receipt.Present?
               && req == RequestFor(init[i].result.signed, init[i].receipt.base64);
      assert events[i] == init[i];
    } else {
      assert events[|events| - 1] == last;
    }
  }

  /**
   * Last write wins: after the listener, the cached subscription is exactly the
   * answer to the last event that verified and validated (rows untouched when none did).
   */
  lemma {:induction false} RowsAfterEventsLastWriteWins(rows: seq<UserRow>, events: seq<UpdateEvent>, i: int)
    requires 0 <= i < |events| && EventSucceeds(events[i])
    requires forall j :: i < j < |events| ==> !EventSucceeds(events[j])
    ensures var resp := ValidationOutcome(events[i].receipt, events[i].reply).value;
            RowsAfterEvents(rows, events)
            == WithSubscription(rows, resp.subscriptionTier, resp.subscriptionStatus, resp.subscriptionExpiresAt, events[i].now)
  {
    var resp := ValidationOutcome(events[i].receipt, events[i].reply).value;
    var init := events[..|events| - 1];
    var last := events[|events| - 1];
    if i == |events| - 1 {
      RowsAfterEventsIsOverwrite(rows, init, resp, last.now);
    } else {
      assert forall j :: i < j < |init| ==> init[j] == events[j];
      RowsAfterEventsLastWriteWins(rows, init, i);
    }
  }

  /** Applying any further events, then an overwrite, yields the overwrite alone. */
  lemma {:induction false} RowsAfterEventsIsOverwrite(rows: seq<UserRow>, events: seq<UpdateEvent>,
                                                      resp: ValidateReceiptResponse, now: int)
    ensures WithSubscription(RowsAfterEvents(rows, events), resp.subscriptionTier, resp.subscriptionStatus,
                             resp.subscriptionExpiresAt, now)
         == WithSubscription(rows, resp.subscriptionTier, resp.subscriptionStatus, resp.subscriptionExpiresAt, now)
    decreases |events|
  {
    if events != [] {
      var init := events[..|events| - 1];
      var e := events[|events| - 1];
      RowsAfterEventsIsOverwrite(rows, init, resp, now);
      var before := RowsAfterEvents(rows, init);
      if e.result.Verified? && ValidationOutcome(e.receipt, e.reply).Success? {
        var r := ValidationOutcome(e.receipt, e.reply).value;
        SubscriptionLastWriteWins(before, r.subscriptionTier, r.subscriptionStatus, r.subscriptionExpiresAt, e.now,
                                  resp.subscriptionTier, resp.subscriptionStatus, resp.subscriptionExpiresAt, now);
      }
    }
  }
}
