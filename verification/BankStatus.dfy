/** One delivery of a bank message: the ten steps of UpdateBankStatus, and how a run of them ends. */
module BankStatus {
  import opened Statuses
  import opened Steps
  import opened Settlement
  import opened Gated

  /** Position of the first step that does not return without error. */
  function Halt(steps: seq<Step>, a: Answers, i: nat, s: State): (k: nat)
    requires i <= |steps|
    ensures i <= k <= |steps|
    decreases |steps| - i
  {
    if i == |steps| || !Exec(steps[i], a(i), s).Next? then i
    else Halt(steps, a, i + 1, Exec(steps[i], a(i), s).st)
  }

  // ----- a delivery that passes the gate ends with the order final, unless it panics

  /** A final status in memory is a final status in the store. */
  predicate Synced(s: State) {
    s.db.Some? && (s.order == Some(Verifying) || s.order == Some(Failed) ==> s.db == s.order)
  }

  predicate NonNil(s: State) { s.order.Some? && s.trans.Some? }

  lemma UndoKeepsSync(step: Step, s: State)
    requires Synced(s)
    ensures Synced(Undo(step, s).st)
  {
    match RepairOf(step) {
      case Park(nilSafe) => ParkKeepsSync(s, nilSafe);
      case SettleExternal => ParkKeepsSync(s, false);
      case SettleOtp => UndoOtpKeepsSync(s);
      case ParkOrderOnly => ParkKeepsSync(s, false);
      case CancelGuarded => FailKeepsSync(CancelIfOpen(s));
      case FailGuarded => FailKeepsSync(s);
      case Reverse(_) => FailKeepsSync(Log(s.(voucher := false), VoucherReverse));
      case Nothing =>
    }
  }

  lemma FailKeepsSync(s: State)
    requires Synced(s)
    ensures Synced(FailIfOpen(s).st)
  {
  }

  lemma ParkKeepsSync(s: State, nilSafe: bool)
    requires Synced(s)
    ensures Synced(ParkOrder(s).st) && Synced(ParkBoth(s, nilSafe).st)
  {
  }

  lemma UndoOtpKeepsSync(s: State)
    requires Synced(s)
    ensures Synced(UndoOtp(s).st)
  {
  }

  lemma UndoNeverNil(step: Step, s: State)
    requires NonNil(s)
    ensures Undo(step, s).Next? && NonNil(Undo(step, s).st)
  {
    match RepairOf(step) {
      case Park(nilSafe) => ParkNeverNil(s, nilSafe);
      case SettleExternal => ParkNeverNil(s, false);
      case _ =>
    }
  }

  lemma ParkNeverNil(s: State, nilSafe: bool)
    requires NonNil(s)
    ensures ParkBoth(s, nilSafe).Next? && NonNil(ParkBoth(s, nilSafe).st)
  {
  }

  /** With both records at hand, no compensation panics. */
  lemma {:induction false} UnwindNeverNil(steps: seq<Step>, n: nat, s: State)
    requires n <= |steps| && NonNil(s)
    ensures Unwind(steps, n, s).exit == Errored
  {
    if n > 0 {
      UndoNeverNil(steps[n - 1], s);
      UnwindNeverNil(steps, n - 1, Undo(steps[n - 1], s).st);
    }
  }

  /** FIND_TRANS's compensation is the last to look at the order, and shuts it. */
  lemma {:induction false} UnwindShuts(steps: seq<Step>, n: nat, s: State)
    requires 2 <= n <= |steps| && steps[0].FindOrder? && steps[1] == FindTx(true) && Synced(s)
    ensures Unwind(steps, n, s).exit == Errored ==> Shut(Unwind(steps, n, s).st)
  {
    if n == 2 {
      FindTxShuts(steps, s);
    } else {
      var o := Undo(steps[n - 1], s);
      UndoKeepsSync(steps[n - 1], s);
      if o.Next? { UnwindShuts(steps, n - 1, o.st); }
    }
  }

  lemma FindTxShuts(steps: seq<Step>, s: State)
    requires |steps| >= 2 && steps[0].FindOrder? && steps[1] == FindTx(true) && Synced(s)
    ensures Unwind(steps, 2, s).exit == Errored ==> Shut(Unwind(steps, 2, s).st)
  {
    var o := FailIfOpen(CancelIfOpen(s));
    assert Undo(steps[1], s) == o;
    if o.Next? { FirstUndo(steps, o.st); }
  }

  // ----- compensations of the lookups, of a rejected payment and of a pending provider

  /** The step's own compensation parks both records. */
  lemma ParksPending(product: Product, s: State)
    requires s.order.Some? && s.order == s.db && !Final(s.order.value) && s.trans.Some? && s.trans == s.tx
    requires !s.rejected
    ensures
      var s1 := Exec(External(true, product), Later, s).st;
      var o := Undo(External(true, product), s1);
      && Exec(External(true, product), Later, s).Fail? && o.Next? && ParkedState(o.st) && o.st.trans.Some?
      && o.st.pending && !o.st.rejected
      && o.st.calls == s.calls + [Delivery] + (if s.tx == Some(TxPending) then [] else [TxUpdate]) + [PutVerifying]
  {
  }

  /** From the pending provider down, both records stay parked. */
  lemma PendingUnwind(steps: seq<Step>, p: nat, s: State)
    requires p < |steps| && Asks(steps[p]) && VoucherBelow(steps, p)
    requires forall j | 0 <= j < p :: !steps[j].ConfirmTx? && !steps[j].SucceedOrder? && !steps[j].EnterOtp?
    requires s.order.Some? && s.order == s.db && !Final(s.order.value) && s.trans.Some? && s.trans == s.tx
    requires !s.rejected
    ensures Exec(steps[p], Later, s).Fail?
    ensures
      var r := Unwind(steps, p + 1, Exec(steps[p], Later, s).st);
      && r.exit == Errored && r.st.db == Some(Verifying) && r.st.tx == Some(TxPending) && !r.st.voucher
      && r.st.calls ==
         s.calls + [Delivery] + (if s.tx == Some(TxPending) then [] else [TxUpdate]) + [PutVerifying] +
           Rollback(steps, p, true)
  {
    var s1 := Exec(steps[p], Later, s).st;
    var s2 := Undo(steps[p], s1).st;
    ParksPending(steps[p].product, s);
    assert Unwind(steps, p + 1, s1) == Unwind(steps, p, s2);
    UnwindSettled(steps, p, s2);
  }

  lemma PassesGate(steps: seq<Step>, a: Answers, s: State)
    requires steps != [] && steps[0].FindOrder? && !Closed(s) && !a(0).Err?
    ensures Run(steps, a, 0, s) == Run(steps, a, 1, s.(order := s.db))
  {
    assert Exec(steps[0], a(0), s) == Next(s.(order := s.db));
  }

  /** Result of a rejected payment, `r` answering the Cancel that is sent if the transaction is found. */
  predicate Rejected(found: bool, r: Reply, s: State, res: Result) {
    var open := found && s.tx != Some(TxFailed) && s.tx != Some(TxPending);
    && res.exit == Errored && res.st.db == Some(Failed) && res.st.voucher == s.voucher
    && res.st.calls ==
       (if found then [TxCancel] else []) + (if found && !r.Err? then [PutSuccess] else []) +
       (if open then [TxCancel] else []) + [PutFailed]
    && res.st.tx == if open || (found && (r.Err? ==> r.applied)) then Some(TxFailed) else s.tx
  }

  lemma RejectsFound(r: Reply, s: State, s2: State)
    requires Idle(s) == s && !Closed(s) && s.tx.Some? && s2 == s.(order := s.db, trans := s.tx)
    ensures Exec(RejectBankFailure(false), r, s2).Fail?
    ensures
      var o := FailIfOpen(CancelIfOpen(Exec(RejectBankFailure(false), r, s2).st));
      o.Next? && Rejected(true, r, s, Result(Errored, o.st))
  {
    var s3 := Exec(RejectBankFailure(false), r, s2).st;
    assert s3.calls == [TxCancel] + if r.Err? then [] else [PutSuccess];
    var s4 := CancelIfOpen(s3);
    assert s4.calls == s3.calls + if s.tx == Some(TxFailed) || s.tx == Some(TxPending) then [] else [TxCancel];
    assert FailIfOpen(s4).st.calls == s4.calls + [PutFailed];
  }

  lemma RejectsAtBank(steps: seq<Step>, a: Answers, s: State)
    requires |steps| > 2 && steps[0].FindOrder? && steps[1] == FindTx(true) && steps[2] == RejectBankFailure(false)
    requires Idle(s) == s && !Closed(s) && !a(1).Err? && s.tx.Some?
    ensures Rejected(true, a(2), s, Run(steps, a, 1, s.(order := s.db)))
  {
    var s1 := s.(order := s.db);
    var s2 := s1.(trans := s.tx);
    assert Exec(steps[1], a(1), s1) == Next(s2);
    assert Run(steps, a, 1, s1) == Run(steps, a, 2, s2);
    RejectsFound(a(2), s, s2);
    var s3 := Exec(steps[2], a(2), s2).st;
    assert Undo(steps[2], s3) == Next(s3);
    assert Unwind(steps, 3, s3) == Unwind(steps, 2, s3);
    FindTxUndo(steps, s3);
  }

  lemma FindTxUndo(steps: seq<Step>, s: State)
    requires |steps| >= 2 && steps[0].FindOrder? && steps[1] == FindTx(true) && s.order.Some?
    ensures Unwind(steps, 2, s) == Result(Errored, FailIfOpen(CancelIfOpen(s)).st)
  {
    var o := FailIfOpen(CancelIfOpen(s));
    assert Undo(steps[1], s) == o;
    FirstUndo(steps, o.st);
  }

  lemma FirstUndo(steps: seq<Step>, s: State)
    requires steps != [] && steps[0].FindOrder?
    ensures Unwind(steps, 1, s) == Result(Errored, s)
  {
    assert Undo(steps[0], s) == Next(s);
    assert Unwind(steps, 0, s) == Result(Errored, s);
  }

  lemma {:induction false} VoucherUnder(steps: seq<Step>, p: nat)
    requires 4 <= p <= |steps| && steps[3].UseVoucher?
    ensures VoucherBelow(steps, p)
  {
    if p > 4 { VoucherUnder(steps, p - 1); }
  }


  // ----- one delivery, step by step

  /** State in which step i is reached, for an order that passed the gate. */
  predicate Reached(i: nat, s0: State, s: State) {
    && !s.pending && !s.rejected && s.db == s0.db
    && (i == 0 ==> s == s0)
    && (i >= 1 ==> s.order == s0.db)
    && (i <= 8 ==> s.tx == s0.tx)
    && (i == 1 ==> s.trans.None?)
    && (2 <= i <= 8 ==> s.trans == s0.tx && s.tx.Some?)
    && (i == 9 ==> s.trans == s.tx == Some(TxFinish))
  }

  lemma DeliveryStep(m: BankMessage, i: nat, r: Reply, s0: State, s: State)
    requires i < 10 && Idle(s0) == s0 && !Closed(s0) && Reached(i, s0, s)
    requires Exec(UpdateBankStatus(m)[i], r, s).Next?
    ensures
      var s1 := Exec(UpdateBankStatus(m)[i], r, s).st;
      if i < 9 then Reached(i + 1, s0, s1) else s1.db == Some(Success) && s1.tx == Some(TxFinish)
  {
    var step := UpdateBankStatus(m)[i];
    if i < 2 || i >= 8 {
      assert step == [FindOrder, FindTx(true), step, step, step, step, step, step, ConfirmTx(false),
        SucceedOrder(true)][i];
    } else {
      assert step.RejectBankFailure? || step.UseVoucher? || step.External? || step.CardFee?;
    }
  }

  lemma {:induction false} RunDelivery(m: BankMessage, a: Answers, i: nat, s0: State, s: State) returns (sk: State)
    requires i < 10 && Idle(s0) == s0 && !Closed(s0) && Reached(i, s0, s)
    ensures
      var steps := UpdateBankStatus(m);
      var k := Halt(steps, a, i, s);
      if k < 10 then
        Reached(k, s0, sk) && Run(steps, a, i, s) == Run(steps, a, k, sk) && !Exec(steps[k], a(k), sk).Next?
      else
        Run(steps, a, i, s) == Result(Returned, sk) && sk.db == Some(Success) && sk.tx == Some(TxFinish)
    decreases 10 - i
  {
    var steps := UpdateBankStatus(m);
    sk := s;
    if Exec(steps[i], a(i), s).Next? {
      var s1 := Exec(steps[i], a(i), s).st;
      DeliveryStep(m, i, a(i), s0, s);
      OneStep(steps, a, i, s);
      assert Halt(steps, a, i, s) == Halt(steps, a, i + 1, s1);
      if i < 9 { sk := RunDelivery(m, a, i + 1, s0, s1); } else { sk := s1; }
    }
  }

  // ----- how a delivery that passed the gate and halted at step k > 0 ends

  /** A transaction the guarded compensation cancels. */
  predicate OpenTx(tx: Option<TxStatus>) { tx.Some? && tx.value != TxFailed && tx.value != TxPending }

  /** The order and the transaction it leaves, by the halting step and its answer. */
  function PairAfter(k: nat, r: Reply, s0: State): (Option<OrderStatus>, Option<TxStatus>) {
    var refused := if OpenTx(s0.tx) then Some(TxFailed) else s0.tx;
    if k == 1 then (Some(Failed), s0.tx)
    else if k == 2 then (Some(Failed), if r.Err? && !r.applied then refused else Some(TxFailed))
    else if k == 3 then (Some(Failed), refused)
    else if k < 8 && r.Later? then (Some(Verifying), Some(TxPending))
    else if k < 8 || (r.Err? && r.record) then (Some(Failed), Some(TxFailed))
    else if k == 8 then (s0.db, if r.Err? && r.applied then Some(TxFinish) else s0.tx)
    else (if r.Err? && r.applied then Some(Success) else s0.db, Some(TxPending))
  }

  predicate HaltedDelivery(k: nat, r: Reply, s0: State, res: Result) {
    && res.exit == (if k >= 8 && !(r.Err? && r.record) then Panicked else Errored)
    && (res.st.db, res.st.tx) == PairAfter(k, r, s0)
  }

  /** Both records there and stored, no flag set. */
  predicate Settleable(s: State) { NonNil(s) && s.db.Some? && s.tx.Some? && !s.pending && !s.rejected }

  /** Settled by one non-pending external compensation, the order and its transaction stay FAILED. */
  lemma RefusedFrom(steps: seq<Step>, p: nat, s: State)
    requires p < |steps| && steps[p].External? && Settleable(s)
    requires forall j | 0 <= j < p :: !steps[j].ConfirmTx? && !steps[j].SucceedOrder? && !steps[j].EnterOtp?
    ensures
      var res := Unwind(steps, p + 1, s);
      res.exit == Errored && res.st.db == Some(Failed) && res.st.tx == Some(TxFailed)
  {
    var s1 := FailOrder(CancelTrans(s)).st;
    assert Undo(steps[p], s) == Next(s1);
    assert Unwind(steps, p + 1, s) == Unwind(steps, p, s1);
    UnwindSettled(steps, p, s1);
  }

  lemma ParkSettleable(step: Step, s: State)
    requires Settleable(s) && (step == ConfirmTx(false) || step == SucceedOrder(true))
    ensures Undo(step, s).Next? && Settleable(Undo(step, s).st)
  {
  }

  /** A failing confirmation or last write that kept its record: parked first, then refused by the last product step. */
  lemma LateFailure(accepted: bool, v: bool, c: bool, t: bool, b: bool, n: nat, s: State)
    requires Settleable(s) && 9 <= n <= 10
    ensures
      var res := Unwind(BankSteps(accepted, v, c, t, b), n, s);
      res.exit == Errored && res.st.db == Some(Failed) && res.st.tx == Some(TxFailed)
  {
    var steps := BankSteps(accepted, v, c, t, b);
    var s1 := Undo(steps[n - 1], s).st;
    ParkSettleable(steps[n - 1], s);
    assert Unwind(steps, n, s) == Unwind(steps, n - 1, s1);
    if n == 10 {
      LateFailure(accepted, v, c, t, b, 9, s1);
    } else {
      RefusedFrom(steps, 7, s1);
    }
  }

  lemma ConfirmHalts(m: BankMessage, r: Reply, s0: State, s: State)
    requires Idle(s0) == s0 && !Closed(s0) && Reached(8, s0, s) && r.Err?
    ensures HaltedDelivery(8, r, s0, Unwind(UpdateBankStatus(m), 9, Exec(ConfirmTx(false), r, s).st))
  {
    var s1 := Exec(ConfirmTx(false), r, s).st;
    if r.record {
      LateFailure(m.code == "200", m.voucher, IsCard(m.sub), IsTopUp(m.sub), IsBill(m.sub), 9, s1);
    } else {
      assert Unwind(UpdateBankStatus(m), 9, s1) == Result(Panicked, s1);
    }
  }

  lemma SucceedHalts(m: BankMessage, r: Reply, s0: State, s: State)
    requires Idle(s0) == s0 && !Closed(s0) && Reached(9, s0, s) && r.Err?
    ensures HaltedDelivery(9, r, s0, Unwind(UpdateBankStatus(m), 10, Exec(SucceedOrder(true), r, s).st))
  {
    var s1 := Exec(SucceedOrder(true), r, s).st;
    if r.record {
      LateFailure(m.code == "200", m.voucher, IsCard(m.sub), IsTopUp(m.sub), IsBill(m.sub), 10, s1);
    } else {
      var u := Undo(SucceedOrder(true), s1);
      assert u.Crash? && u.st.db == s1.db && u.st.tx == Some(TxPending);
      assert Unwind(UpdateBankStatus(m), 10, s1) == Result(Panicked, u.st);
    }
  }

  /** Down to FIND_TRANS nothing but the voucher's reversal happens. */
  lemma VoucherHalts(steps: seq<Step>, r: Reply, s0: State, s: State)
    requires |steps| > 3 && steps[0].FindOrder? && steps[1] == FindTx(true) && steps[2].RejectBankFailure?
    requires steps[3] == UseVoucher(true, false)
    requires Idle(s0) == s0 && !Closed(s0) && Reached(3, s0, s) && r.Err?
    ensures HaltedDelivery(3, r, s0, Unwind(steps, 4, Exec(steps[3], r, s).st))
  {
    var s1 := Exec(steps[3], r, s).st;
    var s2 := Log(s1.(voucher := false), VoucherReverse);
    assert Undo(steps[3], s1) == Next(s2) && Undo(steps[2], s2) == Next(s2);
    assert Unwind(steps, 4, s1) == Unwind(steps, 3, s2) == Unwind(steps, 2, s2);
    FindTxUndo(steps, s2);
  }

  lemma LookupHalts(steps: seq<Step>, r: Reply, s0: State, s: State)
    requires |steps| > 2 && steps[0].FindOrder? && steps[1] == FindTx(true) && (r.Err? || s.tx.None?)
    requires Idle(s0) == s0 && !Closed(s0) && Reached(1, s0, s)
    ensures Exec(steps[1], r, s).Fail? && HaltedDelivery(1, r, s0, Unwind(steps, 2, Exec(steps[1], r, s).st))
  {
    assert Exec(steps[1], r, s) == Fail(s);
    FindTxUndo(steps, s);
  }

  lemma RejectHalts(steps: seq<Step>, r: Reply, s0: State, s: State)
    requires |steps| > 2 && steps[0].FindOrder? && steps[1] == FindTx(true) && steps[2] == RejectBankFailure(false)
    requires Idle(s0) == s0 && !Closed(s0) && Reached(2, s0, s)
    ensures HaltedDelivery(2, r, s0, Unwind(steps, 3, Exec(steps[2], r, s).st))
  {
    var s1 := Exec(steps[2], r, s).st;
    assert Undo(steps[2], s1) == Next(s1);
    assert Unwind(steps, 3, s1) == Unwind(steps, 2, s1);
    FindTxUndo(steps, s1);
  }

  lemma ProductHalts(steps: seq<Step>, k: nat, r: Reply, s0: State, s: State)
    requires 4 <= k < 8 && k < |steps| && Asks(steps[k]) && VoucherBelow(steps, k) && (r.Err? || r.Later?)
    requires forall j | 0 <= j < k :: !steps[j].ConfirmTx? && !steps[j].SucceedOrder? && !steps[j].EnterOtp?
    requires Idle(s0) == s0 && !Closed(s0) && Reached(k, s0, s)
    ensures HaltedDelivery(k, r, s0, Unwind(steps, k + 1, Exec(steps[k], r, s).st))
  {
    if r.Later? { PendingUnwind(steps, k, s); } else { RefusedFrom(steps, k, Exec(steps[k], r, s).st); }
  }

  lemma EarlierHalts(m: BankMessage, k: nat, r: Reply, s0: State, s: State)
    requires Idle(s0) == s0 && !Closed(s0) && 1 <= k < 8 && Reached(k, s0, s)
    requires !Exec(UpdateBankStatus(m)[k], r, s).Next?
    ensures Exec(UpdateBankStatus(m)[k], r, s).Fail?
    ensures HaltedDelivery(k, r, s0, Unwind(UpdateBankStatus(m), k + 1, Exec(UpdateBankStatus(m)[k], r, s).st))
  {
    var steps := UpdateBankStatus(m);
    if k == 1 {
      LookupHalts(steps, r, s0, s);
    } else if k == 2 {
      RejectHalts(steps, r, s0, s);
    } else if k == 3 {
      VoucherHalts(steps, r, s0, s);
    } else {
      VoucherUnder(steps, k);
      assert Asks(steps[k]);
      ProductHalts(steps, k, r, s0, s);
    }
  }

  /** The exact pair a delivery leaves, by the step it halts at; it panics only at ConfirmTx or SucceedOrder. */
  lemma DeliveryOutcome(m: BankMessage, a: Answers, s: State)
    requires Idle(s) == s && !Closed(s)
    ensures
      var k := Halt(UpdateBankStatus(m), a, 0, s);
      var r := Handle(BankStatus(m, a), s);
      && (k == 0 <==> a(0).Err?)
      && (k == 0 ==> r == Result(Errored, s))
      && (1 <= k < 10 ==> HaltedDelivery(k, a(k), s, r))
      && (8 <= k < 10 ==> a(k).Err?)
      && (k == 10 ==> r.exit == Returned && r.st.db == Some(Success) && r.st.tx == Some(TxFinish))
  {
    var steps := UpdateBankStatus(m);
    if a(0).Err? {
      TurnedAway(steps, a, s);
    } else {
      assert Exec(steps[0], a(0), s).Next?;
      var sk := RunDelivery(m, a, 0, s, s);
      if Halt(steps, a, 0, s) < 10 { HaltsAt(m, a, Halt(steps, a, 0, s), s, sk); }
    }
  }

  lemma HaltsAt(m: BankMessage, a: Answers, k: nat, s: State, sk: State)
    requires Idle(s) == s && !Closed(s) && 1 <= k < 10 && Reached(k, s, sk)
    requires !Exec(UpdateBankStatus(m)[k], a(k), sk).Next?
    ensures HaltedDelivery(k, a(k), s, Run(UpdateBankStatus(m), a, k, sk)) && (8 <= k ==> a(k).Err?)
  {
    if k == 8 {
      ConfirmHalts(m, a(8), s, sk);
    } else if k == 9 {
      SucceedHalts(m, a(9), s, sk);
    } else {
      EarlierHalts(m, k, a(k), s, sk);
    }
  }
}
