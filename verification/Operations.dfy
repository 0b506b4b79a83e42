/** The operations on existing orders, in place: what they do to the session is what Handle says. */
module Operations {
  import opened Statuses
  import opened Steps
  import opened Application
  import opened Coordinator
  import opened Gated
  import Sagas
  import opened Settlement
  import Guarantees
  import Products
  import Finals

  /** A saga played under an execution id of its own. */
  method Play(steps: seq<Step>, a: Answers, session: Session) returns (exit: Exit)
    modifies session
    ensures Result(exit, session.View()) == Run(steps, a, 0, old(session.View()))
  {
    var logs := new LogStore();
    var coordinator := new ExecutionCoordinator("", steps, logs, session);
    exit := coordinator.Play(a);
  }

  /**
   A create-and-pay saga in place: order and transaction agree afterwards, and a given voucher is held, exactly under
   the conditions on the first failing answer.
   */
  method PlaySaga(saga: Sagas.Saga, a: Answers, session: Session) returns (exit: Exit)
    requires Sagas.Start(Sagas.StepsOf(saga), session.View())
    modifies session
    ensures
      var steps := Sagas.StepsOf(saga);
      var k := FirstFailure(steps, a, 0);
      && (Agree(old(session.View()), session.View()) <==>
        k == |steps| || !Tears(steps, old(session.View()), steps[k], a(k)))
      && (session.voucher <==>
            if k == |steps| || Guarantees.KeepsVoucher(steps, k, a(k)) then
              old(session.voucher) || Sagas.TakesVoucher(saga)
            else old(session.voucher) && (Sagas.Rank(steps[k]) < 3 || !Sagas.HasVoucherStep(saga)))
      && (exit == Returned ==> session.db == Some(Success) && session.tx == Some(TxFinish))
    ensures exit == Returned ==> session.calls == Products.HappyCalls(saga)
    ensures session.products == [] || session.products == Sagas.ProductsOf(saga)
    ensures |session.products| == Tally(session.calls, Delivery)
    ensures exit == Returned || Tally(session.calls, TxConfirm) > 0 ==>
      session.products ==
        match saga
        case BuyCardSaga(_, _) => [CardSale]
        case TopUpSaga(_) => [Airtime]
        case PayBillSaga(_, _) => [BillPayment]
        case CashOutSaga => [BankTransfer]
        case IbftTransferSaga(_) => [BankTransfer]
        case FundWal2BankSaga => [BankTransfer]
        case ConfirmOrderSaga(_, openWallet) => if openWallet then [WalletFunding] else []
        case _ => []
  {
    Guarantees.NamedAgreement(saga, a, session.View());
    Guarantees.NamedVoucher(saga, a, session.View());
    Products.NamedDelivery(saga, a, session.View());
    Products.NamedSuccess(saga, a, session.View());
    Sagas.EverySagaShaped(saga);
    RunOutcome(Sagas.StepsOf(saga), a, session.View());
    exit := Play(Sagas.StepsOf(saga), a, session);
  }

  method ConfirmOrder(voucher: bool, openWallet: bool, lookup: Reply, a: Answers, session: Session) returns (exit: Exit)
    modifies session
    ensures Result(exit, session.View()) ==
      Handle(Event.ConfirmOrder(voucher, openWallet, lookup, a), old(session.View()))
  {
    var found := session.GetValidOrder(lookup);
    if found.None? { return Errored; }
    session.order := found;
    exit := Play(Sagas.ConfirmOrder(voucher, openWallet), a, session);
  }

  /** Nothing is captured yet. */
  predicate Fresh(session: Session)
    reads session
  {
    Idle(session.View()) == session.View()
  }

  method UpdateCreditPayment(e: Event, session: Session) returns (exit: Exit)
    requires e.UpdateCredit?
    modifies session
    ensures Result(exit, session.View()) == Handle(e, old(session.View()))
    ensures old(Fresh(session)) && old(LetsIn(e.lookup, session.View())) && !e.find.Err? && old(session.tx).Some? ==>
      Finals.Ends([], Finals.CreditFinal(e, old(session.View())), Result(exit, session.View()))
    ensures old(Fresh(session)) && !(old(LetsIn(e.lookup, session.View())) && !e.find.Err? && old(session.tx).Some?) ==>
      exit == Errored && session.View() == old(session.View())
  {
    if Fresh(session) { Finals.CreditOutcome(e, session.View()); }
    var found := session.GetValidOrder(e.lookup);
    if found.None? || e.find.Err? || session.tx.None? { return Errored; }
    session.order, session.trans := found, session.tx;
    exit := Credit(e, session);
  }

  method Credit(e: Event, session: Session) returns (exit: Exit)
    requires e.UpdateCredit? && session.order.Some? && session.trans.Some?
    modifies session
    ensures Result(exit, session.View()) == Gated.Credit(e, old(session.View()))
  {
    match e.status {
      case CreditSuccess => exit := Play(Sagas.ConfirmCredit(), e.a, session);
      case CreditFailed =>
        var _ := session.CancelUnlessClosed();
        exit := Returned;
      case CreditVerifying =>
        if e.bank == Ok {
          exit := Play(Sagas.ConfirmCredit(), e.a, session);
        } else {
          var _ := session.Park();
          var _ := session.VerifyingOrder();
          exit := Returned;
        }
      case CreditOther => exit := Returned;
    }
  }

  method OrderCancel(e: Event, session: Session) returns (exit: Exit)
    requires e.OrderCancel?
    modifies session
    ensures Result(exit, session.View()) == Handle(e, old(session.View()))
    ensures !old(LetsIn(e.lookup, session.View())) ==> exit == Errored && session.View() == old(session.View())
    ensures old(LetsIn(e.lookup, session.View())) ==>
      && exit == (if e.write.Err? then Errored else Returned)
      && session.db == (if e.write.Err? && !e.write.applied then old(session.db) else Some(Cancelled))
    ensures
      var cancels :=
        old(LetsIn(e.lookup, session.View())) && !e.write.Err? && !e.find.Err? && old(session.tx).Some? && e.initial;
      && session.tx == (if cancels then Some(TxFailed) else old(session.tx))
      && session.calls == old(session.calls) + (if cancels then [TxCancel] else [])
  {
    var found := session.GetValidOrder(e.lookup);
    if found.None? { return Errored; }
    session.order := found;
    if e.write.Err? {
      if e.write.applied { session.db := Some(Cancelled); }
      return Errored;
    }
    session.order, session.db := Some(Cancelled), Some(Cancelled);
    if !e.find.Err? && session.tx.Some? && e.initial { session.Cancel(); }
    exit := Returned;
  }

  method OrderUpdate(e: Event, session: Session) returns (exit: Exit)
    requires e.OrderUpdate?
    modifies session
    ensures Result(exit, session.View()) == Handle(e, old(session.View()))
    ensures session.tx == old(session.tx) && session.calls == old(session.calls)
    ensures !old(LetsIn(e.lookup, session.View())) ==> exit == Errored && session.db == old(session.db)
    ensures old(LetsIn(e.lookup, session.View())) ==>
      && exit == (if e.write.Err? then Errored else Returned)
      && session.db ==
           (if (e.write.Err? && !e.write.applied) || e.change.None? then old(session.db) else Some(e.change.value))
  {
    var found := session.GetValidOrder(e.lookup);
    if found.None? { return Errored; }
    session.order := found;
    var status := if e.change.Some? then e.change.value else found.value;
    if e.write.Err? {
      if e.write.applied { session.db := Some(status); }
      return Errored;
    }
    session.order, session.db := Some(status), Some(status);
    exit := Returned;
  }

  /** One run of any gated operation. */
  method Serve(e: Event, session: Session) returns (exit: Exit)
    modifies session
    ensures Result(exit, session.View()) == Handle(e, old(session.View()))
  {
    match e {
      case VerifyOtp(a) => exit := Play(Sagas.VerifyOtp(), a, session);
      case BuyCardWithOtp(v, a) => exit := Play(Sagas.BuyCardWithOtp(v), a, session);
      case BankStatus(m, a) => exit := Play(UpdateBankStatus(m), a, session);
      case ConfirmOrder(v, w, lookup, a) => exit := ConfirmOrder(v, w, lookup, a, session);
      case UpdateCredit(_, _, _, _, _) => exit := UpdateCreditPayment(e, session);
      case OrderCancel(_, _, _, _) => exit := OrderCancel(e, session);
      case OrderUpdate(_, _, _) => exit := OrderUpdate(e, session);
    }
  }
}
