/** Order and transaction statuses, the gate on existing orders, and the bank gateway's code classes. */
module Statuses {

  datatype Option<+T> = None | Some(value: T)

  /** EntityStatus: the in-place status of an order. */
  datatype OrderStatus =
    | Unknown | Pending | Processing | Success | Failed | Cancelled | Verifying | Questionable

  /** Status of a transaction record; TxBlank is the status of a record that was never filled in. */
  datatype TxStatus = TxBlank | TxProcessing | TxPending | TxFinish | TxFailed

  datatype GateVerdict = Valid | Invalid | PendingOrder | PaidOrder | FailedOrder | ExpiredOrder

  /**
   GetValidOrder: the tests an existing order passes through, in the order the code makes them. CANCEL is let through.
   */
  function Gate(stored: Option<OrderStatus>, expired: bool): GateVerdict {
    if stored.None? then Invalid
    else if stored.value == Verifying then PendingOrder
    else if stored.value == Success then PaidOrder
    else if stored.value == Failed then FailedOrder
    else if expired then ExpiredOrder
    else Valid
  }

  /** The statuses that no gated operation may leave. */
  predicate Final(status: OrderStatus) {
    status == Success || status == Failed || status == Verifying
  }

  type BankCode = string

  predicate IsSuccess(code: BankCode) { |code| > 2 && code[0] == '2' }

  predicate IsVerifying(code: BankCode) { code == "102" }

  predicate IsFail(code: BankCode) { |code| > 2 && code[0] == '4' }

  predicate IsWrongOtp(code: BankCode) { code == "449" }
}
