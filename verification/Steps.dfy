/**
 Saga steps: what each forward function and each compensation does to the captured variables
 (in-memory order, transaction record, flags) and to the stores behind the service calls.
 */
module Steps {
  import opened Statuses

  /**
   Answer of one remote call. `applied`: the failing call took effect all the same (a lost
   acknowledgement). `record`: the failing call still returned a record, not a nil pointer.
   `Later` is a pending or timed-out external call, `WrongOtp` the bank's code 449.
   */
  datatype Reply = Ok | Err(applied: bool, record: bool) | Later | WrongOtp

  /** The answer to the forward call of each step of a saga, by position. */
  type Answers = nat -> Reply

  datatype Call =
    | OrderCreate | PutProcessing | PutSuccess | PutFailed | PutVerifying
    | VoucherUse | VoucherReverse
    | TxInit | TxConfirm | TxCancel | TxUpdate
    | Delivery | OtpCheck

  /** What an external step asks of a provider or a bank. */
  datatype Product = CardSale | Airtime | BillPayment | BankTransfer | WalletFunding

  /**
   `order` and `trans` are what the closures captured, None being nil; `db`, `tx`, `voucher` are what the stores hold;
   `products` says what each Delivery asked for.
   */
  datatype State = State(
    order: Option<OrderStatus>,
    trans: Option<TxStatus>,
    pending: bool,
    rejected: bool,
    db: Option<OrderStatus>,
    expired: bool,
    tx: Option<TxStatus>,
    voucher: bool,
    calls: seq<Call>,
    products: seq<Product>)

  datatype Step =
    | Check
    | InitOrder(undo: bool)
    | ProcessOrder
    | UseVoucher(given: bool, closes: bool)
    | InitTx
    | External(applies: bool, product: Product)
    | CardFee(strict: bool)
    | ConfirmTx(nilSafe: bool)
    | SucceedOrder(parks: bool)
    | FindOrder
    | FindTx(cancels: bool)
    | RejectBankFailure(accepted: bool)
    | EnterOtp

  datatype Outcome = Next(st: State) | Fail(st: State) | Crash(st: State)

  datatype Exit = Returned | Errored | Panicked

  datatype Result = Result(exit: Exit, st: State)

  /** How often a call is among the first n. */
  function TallyTo(calls: seq<Call>, n: nat, c: Call): nat
    requires n <= |calls|
  {
    if n == 0 then 0 else TallyTo(calls, n - 1, c) + if calls[n - 1] == c then 1 else 0
  }

  /** How often a call was made. */
  function Tally(calls: seq<Call>, c: Call): nat { TallyTo(calls, |calls|, c) }

  lemma {:induction false} TallyPrefix(s: seq<Call>, t: seq<Call>, n: nat, c: Call)
    requires n <= |s| <= |t| && s <= t
    ensures TallyTo(s, n, c) == TallyTo(t, n, c)
  {
    if n > 0 { TallyPrefix(s, t, n - 1, c); }
  }

  lemma {:induction false} TallyTail(s: seq<Call>, t: seq<Call>, n: nat, c: Call)
    requires n <= |t|
    ensures TallyTo(s + t, |s| + n, c) == Tally(s, c) + TallyTo(t, n, c)
  {
    if n == 0 { TallyPrefix(s, s + t, |s|, c); } else { TallyTail(s, t, n - 1, c); }
  }

  lemma TallyAppend(s: seq<Call>, t: seq<Call>, c: Call)
    ensures Tally(s + t, c) == Tally(s, c) + Tally(t, c)
  {
    TallyTail(s, t, |t|, c);
  }

  lemma TallyOfShort(calls: seq<Call>, c: Call)
    requires |calls| <= 2
    ensures Tally(calls, c) ==
      (if |calls| > 0 && calls[0] == c then 1 else 0) + (if |calls| > 1 && calls[1] == c then 1 else 0)
  {
    assert TallyTo(calls, 0, c) == 0;
    if |calls| > 0 { assert TallyTo(calls, 1, c) == if calls[0] == c then 1 else 0; }
  }

  lemma {:induction false} TallyPositive(calls: seq<Call>, n: nat, c: Call)
    requires n <= |calls| && c in calls[..n]
    ensures TallyTo(calls, n, c) > 0
  {
    if calls[n - 1] != c {
      assert calls[..n] == calls[..n - 1] + [calls[n - 1]];
      TallyPositive(calls, n - 1, c);
    }
  }


  function Log(s: State, c: Call): State { s.(calls := s.calls + [c]) }

  function Deliver(s: State, product: Product): State { Log(s.(products := s.products + [product]), Delivery) }

  /** An external step that does ask its provider or bank. */
  predicate Asks(step: Step) { step.External? && step.applies }

  // ----- service_order.go: the status is overwritten in memory, then the order is replaced in the store

  /** ReplaceByID touches an existing document only. */
  function Replace(s: State, status: OrderStatus): Option<OrderStatus> {
    if s.db.Some? then Some(status) else None
  }

  function Written(s: State, status: OrderStatus, c: Call): State {
    Log(s.(order := Some(status), db := Replace(s, status)), c)
  }

  /** A failing write: it may have been applied, and returns the order or nil. */
  function Unwritten(s: State, status: OrderStatus, c: Call, applied: bool, record: bool): State {
    Log(s.(order := if record then Some(status) else None, db := if applied then Replace(s, status) else s.db), c)
  }

  /** A write whose result is assigned back to the captured order. */
  function WriteOrder(s: State, status: OrderStatus, c: Call, r: Reply): Outcome {
    if s.order.None? then Crash(s)
    else if r.Err? then Fail(Unwritten(s, status, c, r.applied, r.record))
    else Next(Written(s, status, c))
  }

  function FailOrder(s: State): Outcome {
    if s.order.None? then Crash(s)
    else Next(Written(s, Failed, PutFailed))
  }

  /** The guard most compensations share: fail the order unless it is already VERIFYING or FAILED. */
  function FailIfOpen(s: State): Outcome {
    if s.order.None? then Crash(s)
    else if s.order.value == Verifying || s.order.value == Failed then Next(s)
    else FailOrder(s)
  }

  function ParkOrder(s: State): Outcome {
    if s.order.None? then Crash(s)
    else if s.order.value == Verifying then Next(s)
    else Next(Written(s, Verifying, PutVerifying))
  }

  // ----- service_transaction.go

  function SetTx(s: State, status: TxStatus): Option<TxStatus> {
    if s.tx.Some? then Some(status) else None
  }

  function CancelTrans(s: State): State {
    Log(s.(trans := Some(TxFailed), tx := SetTx(s, TxFailed)), TxCancel)
  }

  function CancelIfOpen(s: State): State {
    if s.trans.Some? && s.trans.value != TxFailed && s.trans.value != TxPending then CancelTrans(s) else s
  }

  function ParkTrans(s: State): State {
    Log(s.(trans := Some(TxPending), tx := SetTx(s, TxPending)), TxUpdate)
  }

  function ParkTransIfOpen(s: State, nilSafe: bool): Outcome {
    if s.trans.None? then (if nilSafe then Next(s) else Crash(s))
    else if s.trans.value == TxPending then Next(s)
    else Next(ParkTrans(s))
  }

  function ConfirmTrans(s: State, r: Reply): Outcome {
    if s.trans.None? then Crash(s)
    else if r.Err? then
      Fail(Log(s.(trans := if r.record then s.trans else None,
                  tx := if r.applied then SetTx(s, TxFinish) else s.tx), TxConfirm))
    else Next(Log(s.(trans := Some(TxFinish), tx := SetTx(s, TxFinish)), TxConfirm))
  }

  // ----- forward functions

  function Exec(step: Step, r: Reply, s: State): Outcome {
    match step
    case Check => if r.Err? then Fail(s) else Next(s)
    case InitOrder(_) =>
      if r.Err? then
        Fail(Log(s.(order := if r.record then Some(Pending) else None,
                    db := if r.applied then Some(Pending) else s.db), OrderCreate))
      else Next(Log(s.(order := Some(Pending), db := Some(Pending)), OrderCreate))
    case ProcessOrder => WriteOrder(s, Processing, PutProcessing, r)
    case UseVoucher(given, _) =>
      if !given then Next(s)
      else if r.Err? then Fail(Log(s.(voucher := s.voucher || r.applied), VoucherUse))
      else Next(Log(s.(voucher := true), VoucherUse))
    case InitTx =>
      if r.Err? then
        Fail(Log(s.(trans := if r.record then Some(TxBlank) else None,
                    tx := if r.applied then Some(TxProcessing) else s.tx), TxInit))
      else Next(Log(s.(trans := Some(TxProcessing), tx := Some(TxProcessing)), TxInit))
    case External(applies, product) =>
      if !applies then Next(s)
      else if r.Later? then Fail(Deliver(s.(pending := true), product))
      else if r.Err? then Fail(Deliver(s, product))
      else Next(Deliver(s, product))
    case CardFee(strict) => if strict && r.Err? then Fail(s) else Next(s)
    case ConfirmTx(_) => ConfirmTrans(s, r)
    case SucceedOrder(_) => WriteOrder(s, Success, PutSuccess, r)
    case FindOrder =>
      if r.Err? || Gate(s.db, s.expired) != Valid then Fail(s) else Next(s.(order := s.db))
    case FindTx(_) => if r.Err? || s.tx.None? then Fail(s) else Next(s.(trans := s.tx))
    case RejectBankFailure(accepted) =>
      if accepted then Next(s)
      else if s.trans.None? || s.order.None? then Crash(s)
      else if r.Err? then Fail(Log(s.(tx := if r.applied then SetTx(s, TxFailed) else s.tx), TxCancel))
      // the cancelled record is dropped and SuccessOrder is called before the error is returned
      else Fail(Log(Log(s.(tx := SetTx(s, TxFailed), order := Some(Success), db := Replace(s, Success)), TxCancel),
        PutSuccess))
    case EnterOtp =>
      var s1 := Log(s, OtpCheck);
      if r.Err? then Fail(s1.(rejected := true))
      else if r.Later? then Fail(s1.(pending := true))
      else if r.WrongOtp? then Fail(s1.(rejected := false))
      else Next(s1)
  }

  // ----- compensations

  /** Transaction first, then order. */
  function ParkBoth(s: State, nilSafe: bool): Outcome {
    match ParkTransIfOpen(s, nilSafe)
    case Next(s1) => ParkOrder(s1)
    case o => o
  }

  function UndoExternal(s: State): Outcome {
    if s.pending then ParkBoth(s, false)
    else if s.trans.None? then Crash(s)
    else FailOrder(CancelTrans(s))
  }

  function UndoOtp(s: State): Outcome {
    if s.pending then
      match ParkOrder(s)
      case Next(s1) => ParkTransIfOpen(s1, false)
      case o => o
    else if !s.rejected then Next(s)
    else if s.trans.None? then Crash(s)
    else if s.trans.value == TxPending || s.trans.value == TxFinish || s.trans.value == TxFailed then Next(s)
    else FailOrder(CancelTrans(s))
  }

  /** The kinds of compensation. */
  datatype Repair =
    | Nothing
    | FailGuarded
    | Reverse(closes: bool)
    | CancelGuarded
    | SettleExternal
    | Park(nilSafe: bool)
    | ParkOrderOnly
    | SettleOtp

  function RepairOf(step: Step): Repair {
    match step
    case InitOrder(undo) => if undo then FailGuarded else Nothing
    case ProcessOrder => FailGuarded
    case UseVoucher(_, closes) => Reverse(closes)
    case InitTx => CancelGuarded
    case External(_, _) => SettleExternal
    case ConfirmTx(nilSafe) => Park(nilSafe)
    case SucceedOrder(parks) => if parks then Park(false) else ParkOrderOnly
    case FindTx(cancels) => if cancels then CancelGuarded else Nothing
    case EnterOtp => SettleOtp
    case _ => Nothing
  }

  function Mend(repair: Repair, s: State): Outcome {
    match repair
    case Nothing => Next(s)
    case FailGuarded => FailIfOpen(s)
    case Reverse(closes) =>
      if s.order.None? then Crash(s)
      else
        var s1 := Log(s.(voucher := false), VoucherReverse);
        if closes then FailIfOpen(s1) else Next(s1)
    case CancelGuarded => FailIfOpen(CancelIfOpen(s))
    case SettleExternal => UndoExternal(s)
    case Park(nilSafe) => ParkBoth(s, nilSafe)
    case ParkOrderOnly => ParkOrder(s)
    case SettleOtp => UndoOtp(s)
  }

  function Undo(step: Step, s: State): Outcome { Mend(RepairOf(step), s) }

  // ----- the coordinator's meaning

  /** Steps i, i+1, ... in order; the first failing step hands over to the compensations. */
  function Run(steps: seq<Step>, a: Answers, i: nat, s: State): Result
    requires i <= |steps|
    decreases |steps| - i
  {
    if i == |steps| then Result(Returned, s)
    else
      match Exec(steps[i], a(i), s)
      case Next(s1) => Run(steps, a, i + 1, s1)
      case Fail(s1) => Unwind(steps, i + 1, s1)
      case Crash(s1) => Result(Panicked, s1)
  }

  /** Compensations of steps n-1, ..., 0; a nil dereference abandons the rest. */
  function Unwind(steps: seq<Step>, n: nat, s: State): Result
    requires n <= |steps|
  {
    if n == 0 then Result(Errored, s)
    else
      match Undo(steps[n - 1], s)
      case Next(s1) => Unwind(steps, n - 1, s1)
      case o => Result(Panicked, o.st)
  }
}
