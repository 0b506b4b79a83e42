/**
 The order application's service methods and step closures, in place: they overwrite the variables the closures
 capture and write the stores. Each is proved to do what the step functions of module Steps say.
 */
module Application {
  import opened Statuses
  import opened Steps

  /** How a Go function ends: no error, an error, or a nil dereference. */
  datatype Signal = NoError | Error | NilPanic

  function AsOutcome(signal: Signal, st: State): Outcome {
    match signal
    case NoError => Next(st)
    case Error => Fail(st)
    case NilPanic => Crash(st)
  }

  /**
   What a compensation does is done or cut short by a panic; an error it returns is only collected by the coordinator.
   */
  lemma UndoNeverFails(step: Step, s: State)
    ensures !Undo(step, s).Fail?
  {
  }

  class Session {
    // captured by the closures of one saga
    var order: Option<OrderStatus>
    var trans: Option<TxStatus>
    var pending: bool
    var rejected: bool
    // the stores behind the clients
    var db: Option<OrderStatus>
    var expired: bool
    var tx: Option<TxStatus>
    var voucher: bool
    var calls: seq<Call>
    var products: seq<Product>

    constructor (s: State)
      ensures View() == s
    {
      order, trans, pending, rejected := s.order, s.trans, s.pending, s.rejected;
      db, expired, tx, voucher, calls, products := s.db, s.expired, s.tx, s.voucher, s.calls, s.products;
    }

    function View(): State
      reads this
    {
      State(order, trans, pending, rejected, db, expired, tx, voucher, calls, products)
    }

    // ----- service_order.go

    /** InitOrder, assigned back to the captured order. */
    method InitOrder(r: Reply) returns (signal: Signal)
      modifies this`order, this`db, this`calls
      ensures AsOutcome(signal, View()) == Exec(Steps.Step.InitOrder(true), r, old(View()))
    {
      calls := calls + [OrderCreate];
      if r.Err? {
        if r.applied { db := Some(Pending); }
        order := if r.record then Some(Pending) else None;
        return Error;
      }
      db := Some(Pending);
      order := Some(Pending);
      return NoError;
    }

    /** The status is overwritten in memory before the store is asked to replace the order. */
    method Overwrite(status: OrderStatus, call: Call)
      requires order.Some?
      modifies this`order, this`db, this`calls
      ensures View() == Written(old(View()), status, call)
    {
      order := Some(status);
      calls := calls + [call];
      if db.Some? { db := Some(status); }
    }

    /** A failing write. */
    method FailToOverwrite(status: OrderStatus, call: Call, applied: bool, record: bool)
      requires order.Some?
      modifies this`order, this`db, this`calls
      ensures View() == Unwritten(old(View()), status, call, applied, record)
    {
      if applied {
        Overwrite(status, call);
      } else {
        order := Some(status);
        calls := calls + [call];
      }
      assert View() == Unwritten(old(View()), status, call, applied, true);
      if !record { order := None; }
    }

    /** ProcessingOrder and SuccessOrder, assigned back to the captured order. */
    method WriteBack(status: OrderStatus, call: Call, r: Reply) returns (signal: Signal)
      modifies this`order, this`db, this`calls
      ensures AsOutcome(signal, View()) == WriteOrder(old(View()), status, call, r)
    {
      if order.None? { return NilPanic; }
      if r.Err? {
        FailToOverwrite(status, call, r.applied, r.record);
        return Error;
      }
      Overwrite(status, call);
      return NoError;
    }

    method FailedOrder() returns (signal: Signal)
      modifies this`order, this`db, this`calls
      ensures AsOutcome(signal, View()) == FailOrder(old(View()))
    {
      signal := WriteBack(Failed, PutFailed, Ok);
    }

    method VerifyingOrder() returns (signal: Signal)
      modifies this`order, this`db, this`calls
      ensures AsOutcome(signal, View()) == WriteOrder(old(View()), Verifying, PutVerifying, Ok)
    {
      signal := WriteBack(Verifying, PutVerifying, Ok);
    }

    // ----- get_valid_order.go

    method GetValidOrder(r: Reply) returns (found: Option<OrderStatus>)
      ensures found == if r.Err? || Gate(db, expired) != Valid then None else db
      ensures found.Some? <==>
        !r.Err? && db.Some? && db.value != Verifying && db.value != Success && db.value != Failed && !expired
      ensures found.Some? ==> found == db
    {
      if r.Err? || db.None? { return None; }
      if db.value == Verifying || db.value == Success || db.value == Failed { return None; }
      if expired { return None; }
      return db;
    }

    // ----- service_transaction.go

    method Cancel()
      modifies this`trans, this`tx, this`calls
      ensures View() == CancelTrans(old(View()))
    {
      calls := calls + [TxCancel];
      if tx.Some? { tx := Some(TxFailed); }
      trans := Some(TxFailed);
    }

    method Park() returns (signal: Signal)
      modifies this`trans, this`tx, this`calls
      ensures AsOutcome(signal, View()) == if old(trans).None? then Crash(old(View())) else Next(ParkTrans(old(View())))
    {
      if trans.None? { return NilPanic; }
      trans := Some(TxPending);
      calls := calls + [TxUpdate];
      if tx.Some? { tx := Some(TxPending); }
      return NoError;
    }

    method Confirm(r: Reply) returns (signal: Signal)
      modifies this`trans, this`tx, this`calls
      ensures AsOutcome(signal, View()) == ConfirmTrans(old(View()), r)
    {
      if trans.None? { return NilPanic; }
      calls := calls + [TxConfirm];
      if r.Err? {
        if r.applied && tx.Some? { tx := Some(TxFinish); }
        if !r.record { trans := None; }
        return Error;
      }
      if tx.Some? { tx := Some(TxFinish); }
      trans := Some(TxFinish);
      return NoError;
    }

    // ----- the guards compensations share

    method FailUnlessFinal() returns (signal: Signal)
      modifies this`order, this`db, this`calls
      ensures AsOutcome(signal, View()) == FailIfOpen(old(View()))
    {
      if order.None? { return NilPanic; }
      signal := NoError;
      if order.value != Verifying && order.value != Failed { signal := FailedOrder(); }
    }

    method ParkOrderUnlessParked() returns (signal: Signal)
      modifies this`order, this`db, this`calls
      ensures AsOutcome(signal, View()) == ParkOrder(old(View()))
    {
      if order.None? { return NilPanic; }
      signal := NoError;
      if order.value != Verifying { signal := VerifyingOrder(); }
    }

    method ParkUnlessParked(nilSafe: bool) returns (signal: Signal)
      modifies this`trans, this`tx, this`calls
      ensures AsOutcome(signal, View()) == ParkTransIfOpen(old(View()), nilSafe)
    {
      if trans.None? { return if nilSafe then NoError else NilPanic; }
      signal := NoError;
      if trans.value != TxPending { signal := Park(); }
    }

    // ----- forward functions

    method Execute(step: Step, r: Reply) returns (signal: Signal)
      modifies this
      ensures AsOutcome(signal, View()) == Exec(step, r, old(View()))
    {
      match step {
        case Check => signal := if r.Err? then Error else NoError;
        case InitOrder(_) => signal := InitOrder(r);
        case ProcessOrder => signal := WriteBack(Processing, PutProcessing, r);
        case UseVoucher(given, _) => signal := UseVoucher(given, r);
        case InitTx => signal := InitTransaction(r);
        case External(applies, product) => signal := CallProvider(applies, product, r);
        case CardFee(strict) => signal := if strict && r.Err? then Error else NoError;
        case ConfirmTx(_) => signal := Confirm(r);
        case SucceedOrder(_) => signal := WriteBack(Success, PutSuccess, r);
        case FindOrder =>
          var found := GetValidOrder(r);
          if found.None? { return Error; }
          order := found;
          signal := NoError;
        case FindTx(_) =>
          if r.Err? || tx.None? { return Error; }
          trans := tx;
          signal := NoError;
        case RejectBankFailure(accepted) => signal := RejectBankFailure(accepted, r);
        case EnterOtp => signal := EnterOtp(r);
      }
    }

    method UseVoucher(given: bool, r: Reply) returns (signal: Signal)
      modifies this`voucher, this`calls
      ensures AsOutcome(signal, View()) == Exec(Steps.Step.UseVoucher(given, true), r, old(View()))
    {
      if !given { return NoError; }
      calls := calls + [VoucherUse];
      if !r.Err? || r.applied { voucher := true; }
      signal := if r.Err? then Error else NoError;
    }

    method InitTransaction(r: Reply) returns (signal: Signal)
      modifies this`trans, this`tx, this`calls
      ensures AsOutcome(signal, View()) == Exec(InitTx, r, old(View()))
    {
      calls := calls + [TxInit];
      if !r.Err? || r.applied { tx := Some(TxProcessing); }
      trans := if !r.Err? then Some(TxProcessing) else if r.record then Some(TxBlank) else None;
      signal := if r.Err? then Error else NoError;
    }

    method CallProvider(applies: bool, product: Product, r: Reply) returns (signal: Signal)
      modifies this`pending, this`calls, this`products
      ensures AsOutcome(signal, View()) == Exec(External(applies, product), r, old(View()))
    {
      if !applies { return NoError; }
      calls := calls + [Delivery];
      products := products + [product];
      if r.Later? { pending := true; }
      signal := if r.Later? || r.Err? then Error else NoError;
    }

    method RejectBankFailure(accepted: bool, r: Reply) returns (signal: Signal)
      modifies this`order, this`db, this`tx, this`calls
      ensures AsOutcome(signal, View()) == Exec(Steps.Step.RejectBankFailure(accepted), r, old(View()))
    {
      if accepted { return NoError; }
      if trans.None? || order.None? { return NilPanic; }
      calls := calls + [TxCancel];
      if tx.Some? && (!r.Err? || r.applied) { tx := Some(TxFailed); }
      if !r.Err? {
        var _ := WriteBack(Success, PutSuccess, Ok);
      }
      return Error;
    }

    method EnterOtp(r: Reply) returns (signal: Signal)
      modifies this`pending, this`rejected, this`calls
      ensures AsOutcome(signal, View()) == Exec(Steps.Step.EnterOtp, r, old(View()))
    {
      calls := calls + [OtpCheck];
      if r.Err? { rejected := true; return Error; }
      if r.Later? { pending := true; return Error; }
      if r.WrongOtp? { rejected := false; return Error; }
      return NoError;
    }

    // ----- compensations

    /** FAIL BANK STATUS is the one compensation that changes nothing and still returns an error. */
    method Compensate(step: Step) returns (signal: Signal)
      modifies this
      ensures Undo(step, old(View())) == if signal == NilPanic then Crash(View()) else Next(View())
      ensures signal == Error <==> step.RejectBankFailure?
    {
      UndoNeverFails(step, View());
      match RepairOf(step) {
        case Nothing => signal := if step.RejectBankFailure? then Error else NoError;
        case FailGuarded => signal := FailUnlessFinal();
        case Reverse(closes) => signal := ReverseVoucher(closes);
        case CancelGuarded => signal := CancelUnlessClosed();
        case SettleExternal => signal := SettleProvider();
        case Park(nilSafe) =>
          signal := ParkUnlessParked(nilSafe);
          if signal == NoError { signal := ParkOrderUnlessParked(); }
        case ParkOrderOnly => signal := ParkOrderUnlessParked();
        case SettleOtp => signal := SettleOtp();
      }
    }

    method ReverseVoucher(closes: bool) returns (signal: Signal)
      modifies this`order, this`db, this`voucher, this`calls
      ensures AsOutcome(signal, View()) == Mend(Reverse(closes), old(View()))
    {
      if order.None? { return NilPanic; }
      voucher := false;
      calls := calls + [VoucherReverse];
      signal := NoError;
      if closes { signal := FailUnlessFinal(); }
    }

    method CancelUnlessClosed() returns (signal: Signal)
      modifies this`order, this`db, this`trans, this`tx, this`calls
      ensures AsOutcome(signal, View()) == Mend(CancelGuarded, old(View()))
    {
      if trans.Some? && trans.value != TxFailed && trans.value != TxPending { Cancel(); }
      signal := FailUnlessFinal();
    }

    method SettleProvider() returns (signal: Signal)
      modifies this`order, this`db, this`trans, this`tx, this`calls
      ensures AsOutcome(signal, View()) == UndoExternal(old(View()))
    {
      if pending {
        signal := ParkUnlessParked(false);
        if signal == NoError { signal := ParkOrderUnlessParked(); }
      } else {
        signal := Refuse();
      }
    }

    /** Cancel, then FailedOrder, unguarded but for the nil transaction. */
    method Refuse() returns (signal: Signal)
      modifies this`order, this`db, this`trans, this`tx, this`calls
      ensures AsOutcome(signal, View()) == if old(trans).None? then Crash(old(View()))
        else FailOrder(CancelTrans(old(View())))
    {
      if trans.None? { return NilPanic; }
      Cancel();
      signal := FailedOrder();
    }

    method SettleOtp() returns (signal: Signal)
      modifies this`order, this`db, this`trans, this`tx, this`calls
      ensures AsOutcome(signal, View()) == UndoOtp(old(View()))
    {
      signal := NoError;
      if pending {
        signal := ParkOrderUnlessParked();
        if signal == NoError { signal := ParkUnlessParked(false); }
      } else if rejected {
        if trans.None? { return NilPanic; }
        if trans.value != TxPending && trans.value != TxFinish && trans.value != TxFailed { signal := Refuse(); }
      }
    }
  }
}
