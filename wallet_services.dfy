/**
 * The simulated payout (auth_backend/wallet/services.py). No gateway is called:
 * the request is marked COMPLETED in place and saved.
 */
module WalletServices {
  import opened Options
  import opened WalletModels

  /** The exceptions an admin action may see come out of a payout call. */
  datatype PayoutError =
    | PayoutServiceError(message: string)
    | UnexpectedError(message: string)

  /** A payout call either returns a boolean or raises. */
  datatype PayoutResult = Returned(initiated: bool) | Raised(error: PayoutError)

  /**
   * `initiate_razorpay_payout`. A status other than APPROVED is only logged, so
   * the request ends COMPLETED whatever it was. `saveFailure` is the error the
   * final `save` raises, if any; it is re-raised after the in-memory fields were
   * already assigned; as the save fails inside the caller's atomic block,
   * that block is then marked for rollback. Only `status`, `processed_at` and
   * `rejection_reason` are written, and no wallet is touched.
   */
  method InitiateRazorpayPayout(req: WithdrawalRequest, now: Time, saveFailure: Option<string>)
    returns (result: PayoutResult)
    modifies req`status, req`processedAt, req`rejectionReason
    ensures req.status == Completed
    ensures req.processedAt == Some(now)
    ensures req.rejectionReason == None
    ensures saveFailure.None? ==> result == Returned(true)
    ensures saveFailure.Some? ==> result == Raised(UnexpectedError(saveFailure.value))
    ensures result != Returned(false)
  {
    req.status := Completed;
    req.processedAt := Some(now);
    req.rejectionReason := None;
    if saveFailure.Some? {
      return Raised(UnexpectedError(saveFailure.value));
    }
    return Returned(true);
  }
}
