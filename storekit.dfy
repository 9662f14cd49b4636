/**
 * The StoreKit values the purchase code handles, and the store's error enum
 * (ios/KinexFit/Store/StoreManager.swift:7-23).
 */
module StoreKitTypes {
  import opened Wrappers

  /** StoreKit's `VerificationResult<T>`: the platform's own signature check passed or not. */
  datatype VerificationResult<T> = Verified(signed: T) | Unverified(unsafe: T)

  /** The fields of a StoreKit `Transaction` the core reads; `id` is a `UInt64`. */
  datatype Transaction = Transaction(id: nat, productID: string, revocationDate: Option<int>)

  datatype StoreError = FailedVerification | ProductNotFound | PurchaseFailed | PurchaseCancelled | UnknownError

  /** `StoreError.errorDescription`. */
  function StoreErrorDescription(e: StoreError): string {
    match e
    case FailedVerification => "Transaction verification failed"
    case ProductNotFound => "Product not found"
    case PurchaseFailed => "Purchase failed"
    case PurchaseCancelled => "Purchase was cancelled"
    case UnknownError => "An unknown error occurred"
  }
}
