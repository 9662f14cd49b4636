/**
 * The validation gateway of the client (ios/KinexFit/Store/PurchaseValidator.swift):
 * read the app's receipt, POST it with the transaction to the backend, and
 * overwrite the locally cached subscription with the backend's answer.
 */
module PurchaseValidator {
  import opened Wrappers
  import opened Text
  import opened UserModel
  import opened ApiModel
  import opened StoreKitTypes
  import opened LocalStore
  import opened UserRepository

  const ValidateEndpoint: Endpoint := Endpoint(Post, "/api/mobile/subscriptions/validate")

  datatype ValidateReceiptRequest = ValidateReceiptRequest(transactionId: string, productId: string, receiptData: string)

  /** The backend's authoritative answer; the expiry is a time in ms. */
  datatype ValidateReceiptResponse = ValidateReceiptResponse(
    subscriptionTier: SubscriptionTier,
    subscriptionStatus: SubscriptionStatus,
    subscriptionExpiresAt: Option<int>)

  /**
   * What the app finds when it looks for its receipt: no receipt URL, no file
   * at the URL, a file that cannot be read, or the file's Base64 encoding.
   */
  datatype ReceiptFile = NoReceiptURL | FileMissing | Unreadable(reason: string) | Present(base64: string)

  datatype ReceiptError = ReceiptStoreError(error: StoreError) | ReadError(reason: string)

  /** `getReceiptData(for:)`: a missing receipt is a failed verification; a read error propagates. */
  function GetReceiptData(file: ReceiptFile): (r: Result<string, ReceiptError>)
    ensures (file.NoReceiptURL? || file.FileMissing?) <==> r == Failure(ReceiptStoreError(FailedVerification))
    ensures file.Present? <==> r.Success?
    ensures file.Present? ==> r.value == file.base64
  {
    match file
    case NoReceiptURL => Failure(ReceiptStoreError(FailedVerification))
    case FileMissing => Failure(ReceiptStoreError(FailedVerification))
    case Unreadable(reason) => Failure(ReadError(reason))
    case Present(data) => Success(data)
  }

  /** The body `validate` posts for transaction `t` and the obtained receipt. */
  function RequestFor(t: Transaction, receipt: string): (req: ValidateReceiptRequest)
    ensures req.productId == t.productID && req.receiptData == receipt
    ensures req.transactionId == NatToString(t.id)
  {
    ValidateReceiptRequest(NatToString(t.id), t.productID, receipt)
  }

  /** The errors `validate` throws. */
  datatype ValidationError = ValidationStoreError(error: StoreError) | ValidationSendError(cause: SendError)

  /**
   * The outcome of `validate` given what the receipt lookup finds and what the
   * backend replies: `try?` turns every receipt failure into `failedVerification`.
   */
  function ValidationOutcome(file: ReceiptFile, reply: Result<ValidateReceiptResponse, SendError>)
    : (r: Result<ValidateReceiptResponse, ValidationError>)
    ensures GetReceiptData(file).Failure? ==> r == Failure(ValidationStoreError(FailedVerification))
    ensures GetReceiptData(file).Success? ==> r == (if reply.Success? then Success(reply.value)
                                                    else Failure(ValidationSendError(reply.error)))
  {
    if GetReceiptData(file).Failure? then Failure(ValidationStoreError(FailedVerification))
    else if reply.Failure? then Failure(ValidationSendError(reply.error))
    else Success(reply.value)
  }

  /** The requests `validate` sends: one, exactly when the receipt was obtained. */
  function SentBy(t: Transaction, file: ReceiptFile): (s: seq<ValidateReceiptRequest>)
    ensures |s| <= 1
    ensures s != [] <==> file.Present?
  {
    if file.Present? then [RequestFor(t, file.base64)] else []
  }

  /** The `users` rows after `validate`: overwritten with the answer on success, untouched otherwise. */
  function RowsAfterValidation(rows: seq<UserRow>, file: ReceiptFile,
                               reply: Result<ValidateReceiptResponse, SendError>, now: int): seq<UserRow>
  {
    match ValidationOutcome(file, reply)
    case Failure(_) => rows
    case Success(resp) => WithSubscription(rows, resp.subscriptionTier, resp.subscriptionStatus, resp.subscriptionExpiresAt, now)
  }

  class PurchaseValidator {
    const userRepository: UserRepository
    /** The validation requests sent to the backend, oldest first. */
    var sent: seq<ValidateReceiptRequest>

    constructor (userRepository: UserRepository)
      ensures this.userRepository == userRepository && sent == []
    {
      this.userRepository := userRepository;
      sent := [];
    }

    /**
     * `validate(_:)`: receipt, then request, then local update, each step only
     * when the one before it succeeded. `now` is the `Date()` the update stamps.
     */
    method Validate(t: Transaction, file: ReceiptFile, reply: Result<ValidateReceiptResponse, SendError>, now: int)
      returns (r: Result<Unit, ValidationError>)
      requires userRepository.database.Valid()
      modifies this`sent, userRepository.database`users
      ensures userRepository.database.Valid()
      ensures sent == old(sent) + SentBy(t, file)
      ensures r.Success? <==> ValidationOutcome(file, reply).Success?
      ensures r.Failure? ==> r.error == ValidationOutcome(file, reply).error
      ensures userRepository.database.users == RowsAfterValidation(old(userRepository.database.users), file, reply, now)
    {
      var receipt := GetReceiptData(file);
      if receipt.Failure? {
        return Failure(ValidationStoreError(FailedVerification));
      }
      sent := sent + [RequestFor(t, receipt.value)];
      if reply.Failure? {
        return Failure(ValidationSendError(reply.error));
      }
      var response := reply.value;
      userRepository.UpdateSubscription(response.subscriptionTier, response.subscriptionStatus,
                                        response.subscriptionExpiresAt, now);
      r := Success(Unit);
    }
  }

  // ---------------------------------------------------------------------------
  // Properties

  /**
   * Without a receipt nothing is sent and nothing is written; when the backend
   * send fails nothing is written; on success every row carries exactly the
   * backend's tier, status and expiry, with its quota counters untouched.
   */
  lemma ValidationEffects(rows: seq<UserRow>, t: Transaction, file: ReceiptFile,
                          reply: Result<ValidateReceiptResponse, SendError>, now: int)
    ensures !file.Present? ==> SentBy(t, file) == [] && RowsAfterValidation(rows, file, reply, now) == rows
    ensures reply.Failure? ==> RowsAfterValidation(rows, file, reply, now) == rows
    ensures file.Present? && reply.Success? ==>
              var after := RowsAfterValidation(rows, file, reply, now);
              && |after| == |rows|
              && forall i :: 0 <= i < |rows| ==>
                   && after[i].user.subscriptionTier == reply.value.subscriptionTier
                   && after[i].user.subscriptionStatus == Some(reply.value.subscriptionStatus)
                   && after[i].subscriptionExpiresAt == reply.value.subscriptionExpiresAt
                   && after[i].user.scanQuotaUsed == rows[i].user.scanQuotaUsed
                   && after[i].user.aiQuotaUsed == rows[i].user.aiQuotaUsed
  {
    if file.Present? && reply.Success? {
      var resp := reply.value;
      forall i | 0 <= i < |rows|
        ensures WithSubscription(rows, resp.subscriptionTier, resp.subscriptionStatus, resp.subscriptionExpiresAt, now)[i].user.scanQuotaUsed
             == rows[i].user.scanQuotaUsed
      {
        SubscriptionUpdateFrame(rows, resp.subscriptionTier, resp.subscriptionStatus, resp.subscriptionExpiresAt, now, i);
      }
    }
  }

  /** Validating the same transaction twice with the same answer leaves the same rows as validating once. */
  lemma ValidationIdempotent(rows: seq<UserRow>, file: ReceiptFile,
                             reply: Result<ValidateReceiptResponse, SendError>, now: int)
    ensures RowsAfterValidation(RowsAfterValidation(rows, file, reply, now), file, reply, now)
         == RowsAfterValidation(rows, file, reply, now)
  {
    match ValidationOutcome(file, reply)
    case Failure(_) =>
    case Success(resp) =>
      SubscriptionLastWriteWins(rows, resp.subscriptionTier, resp.subscriptionStatus, resp.subscriptionExpiresAt, now,
                                resp.subscriptionTier, resp.subscriptionStatus, resp.subscriptionExpiresAt, now);
  }

  /**
   * A transaction for the core product, answered with core / active /
   * 2024-03-01T00:00:00Z: every cached row becomes core and active, counters kept.
   */
  lemma CoreActivationScenario(rows: seq<UserRow>, receipt: string, now: int)
    requires |rows| == 1
    ensures var reply := Success(ValidateReceiptResponse(Core, Active, Some(1709251200000)));
            var after := RowsAfterValidation(rows, Present(receipt), reply, now);
            && after[0].user.subscriptionTier == Core
            && after[0].user.subscriptionStatus == Some(Active)
            && after[0].subscriptionExpiresAt == Some(1709251200000)
            && after[0].user.scanQuotaUsed == rows[0].user.scanQuotaUsed
            && after[0].user.aiQuotaUsed == rows[0].user.aiQuotaUsed
  {
    var reply := Success(ValidateReceiptResponse(Core, Active, Some(1709251200000)));
    ValidationEffects(rows, Transaction(1, "com.kinex.fit.core.monthly", None), Present(receipt), reply, now);
  }
}
