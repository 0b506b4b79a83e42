/** Voucher conservation for the sagas that redeem a voucher on an existing order and its transaction. */
module Vouchers {
  import opened Statuses
  import opened Steps
  import opened Sagas
  import opened Settlement
  import opened Gated
  import opened BankStatus
  import opened Reaching
  import Redelivery
  import Otp

  /**
   Order and transaction are looked up first, the one voucher step, at g, comes after them, and the confirmation is not
   nil-safe.
   */
  predicate LooksUp(steps: seq<Step>, g: nat) {
    && Guarded(steps) && 2 <= g < |steps| - 2 && steps[0].FindOrder? && steps[1].FindTx? && steps[g].UseVoucher?
    && steps[|steps| - 2] == ConfirmTx(false) && steps[|steps| - 1] == SucceedOrder(true)
    && (forall i | 0 <= i < |steps| :: !steps[i].InitTx? && !steps[i].ProcessOrder? && !steps[i].Check?)
    && (forall i | 0 <= i < |steps| && i != g :: !steps[i].UseVoucher?)
  }

  // ----- compensations

  lemma UndoVoucher(step: Step, s: State)
    requires NonNil(s)
    ensures Undo(step, s).st.voucher == (s.voucher && !step.UseVoucher?)
  {
    match RepairOf(step) {
      case Park(nilSafe) => ParkKeepsVoucher(s, nilSafe);
      case SettleExternal => ParkKeepsVoucher(s, false);
      case _ =>
    }
  }

  lemma ParkKeepsVoucher(s: State, nilSafe: bool)
    ensures ParkBoth(s, nilSafe).st.voucher == s.voucher
  {
  }

  /**
   With both records at hand the compensations run to the end, and the voucher is reversed if its step is among them.
   */
  lemma {:induction false} UnwindVoucher(steps: seq<Step>, n: nat, s: State)
    requires n <= |steps| && NonNil(s)
    ensures Unwind(steps, n, s).exit == Errored
    ensures Unwind(steps, n, s).st.voucher == (s.voucher && !VoucherBelow(steps, n))
  {
    if n > 0 {
      UndoNeverNil(steps[n - 1], s);
      UndoVoucher(steps[n - 1], s);
      UnwindVoucher(steps, n - 1, Undo(steps[n - 1], s).st);
    }
  }

  // ----- where the run stops

  lemma MiddleFails(step: Step, r: Reply, s: State)
    requires step.RejectBankFailure? || step.UseVoucher? || step.External? || step.CardFee? || step.EnterOtp?
    requires NonNil(s) && !Exec(step, r, s).Next?
    ensures Exec(step, r, s).Fail? && NonNil(Exec(step, r, s).st)
    ensures step.UseVoucher? || Exec(step, r, s).st.voucher == s.voucher
  {
  }

  lemma {:induction false} VoucherAt(steps: seq<Step>, g: nat, n: nat)
    requires g < |steps| && n <= |steps| && steps[g].UseVoucher?
    requires forall i | 0 <= i < |steps| && i != g :: !steps[i].UseVoucher?
    ensures VoucherBelow(steps, n) <==> g < n
    ensures GivenBelow(steps, n) <==> g < n && steps[g].given
  {
    if n > 0 { VoucherAt(steps, g, n - 1); }
  }

  /**
   Stopped between the lookups and the confirmation, the run ends with the voucher only if it never came to its step.
   */
  lemma StopsInTheMiddle(steps: seq<Step>, a: Answers, g: nat, k: nat, s0: State, s: State)
    requires LooksUp(steps, g) && 2 <= k < |steps| - 2 && Live(steps, k, s0, s) && Stops(steps[k], a(k), s0)
    ensures Run(steps, a, k, s).st.voucher == (s.voucher && k < g)
  {
    LiveStep(steps, k, a(k), s0, s);
    MiddleFails(steps[k], a(k), s);
    OneStep(steps, a, k, s);
    UnwindVoucher(steps, k + 1, Exec(steps[k], a(k), s).st);
    VoucherAt(steps, g, k + 1);
  }

  /** Stopped at a lookup, the run never touched the voucher. */
  lemma StopsAtLookup(steps: seq<Step>, a: Answers, g: nat, s0: State, s: State)
    requires LooksUp(steps, g) && Live(steps, 1, s0, s) && Stops(steps[1], a(1), s0)
    ensures Run(steps, a, 1, s).st.voucher == s.voucher
  {
    LiveStep(steps, 1, a(1), s0, s);
    OneStep(steps, a, 1, s);
    assert Exec(steps[1], a(1), s) == Fail(s);
    var o := Undo(steps[1], s);
    assert o.st.voucher == s.voucher;
    if o.Next? { FirstUndo(steps, o.st); }
  }

  /** A failing confirmation: only a missing record keeps the compensations from reversing the voucher. */
  lemma ConfirmVoucher(steps: seq<Step>, i: nat, r: Reply, s: State)
    requires i < |steps| && steps[i] == ConfirmTx(false) && NonNil(s) && VoucherBelow(steps, i) && r.Err?
    ensures Unwind(steps, i + 1, ConfirmTrans(s, r).st).st.voucher <==> s.voucher && !r.record
  {
    var s1 := ConfirmTrans(s, r).st;
    if r.record { UnwindVoucher(steps, i + 1, s1); } else { assert Undo(steps[i], s1) == Crash(s1); }
  }

  /** The same for the last write. */
  lemma SuccessVoucher(steps: seq<Step>, i: nat, r: Reply, s: State)
    requires i < |steps| && steps[i] == SucceedOrder(true) && NonNil(s) && VoucherBelow(steps, i) && r.Err?
    ensures Unwind(steps, i + 1, WriteOrder(s, Success, PutSuccess, r).st).st.voucher <==> s.voucher && !r.record
  {
    var s1 := WriteOrder(s, Success, PutSuccess, r).st;
    if r.record {
      UnwindVoucher(steps, i + 1, s1);
    } else {
      ParkKeepsVoucher(s1, false);
      assert Undo(steps[i], s1).Crash?;
    }
  }

  /** A run at its last step. */
  lemma LastWrite(steps: seq<Step>, a: Answers, i: nat, s: State)
    requires i + 1 == |steps| && steps[i] == SucceedOrder(true) && NonNil(s) && VoucherBelow(steps, i)
    ensures Run(steps, a, i, s).st.voucher <==> s.voucher && (a(i).Err? ==> !a(i).record)
  {
    assert Exec(steps[i], a(i), s) == WriteOrder(s, Success, PutSuccess, a(i));
    OneStep(steps, a, i, s);
    if a(i).Err? { SuccessVoucher(steps, i, a(i), s); }
  }

  /** How the last two steps end, as far as the voucher goes: through, or without a record. */
  predicate EndsHolding(steps: seq<Step>, a: Answers)
    requires |steps| >= 2
  {
    var i := |steps| - 2;
    if a(i).Err? then !a(i).record else a(i + 1).Err? ==> !a(i + 1).record
  }

  lemma LastVoucher(steps: seq<Step>, a: Answers, i: nat, s: State)
    requires i + 2 == |steps| && steps[i] == ConfirmTx(false) && steps[i + 1] == SucceedOrder(true)
    requires NonNil(s) && VoucherBelow(steps, i)
    ensures Run(steps, a, i, s).st.voucher <==> s.voucher && EndsHolding(steps, a)
  {
    var o := ConfirmTrans(s, a(i));
    assert Exec(steps[i], a(i), s) == o;
    OneStep(steps, a, i, s);
    if a(i).Err? { ConfirmVoucher(steps, i, a(i), s); } else { LastWrite(steps, a, i + 1, o.st); }
  }

  lemma LastStop(steps: seq<Step>, a: Answers, s0: State)
    requires ConfirmsLast(steps)
    ensures
      var i := |steps| - 2;
      FirstStop(steps, a, i, s0) == if a(i).Err? then i else if a(i + 1).Err? then i + 1 else i + 2
  {
  }

  // ----- theorems

  /**
   The voucher after a run that first stops at k, if its voucher step lies at g and `held` says whether it was held
   before.
   */
  predicate HeldAfter(held: bool, given: bool, g: nat, n: nat, k: nat, r: Reply) {
    if k < g then held
    else if k + 2 < n then false
    else (held || given) && (k == n || (r.Err? && !r.record))
  }

  /**
   Exactly when the voucher is held after a run: it was held before and the run stopped ahead of its voucher step; or
   it was held before or given, and nothing stopped the run, or the confirmation or the last write failed without a
   record, so that a compensation panicked before the reversal.
   */
  lemma GatedVoucher(steps: seq<Step>, a: Answers, g: nat, s: State)
    requires LooksUp(steps, g) && Idle(s) == s
    ensures
      var k := FirstStop(steps, a, 0, s);
      Run(steps, a, 0, s).st.voucher <==> HeldAfter(s.voucher, steps[g].given, g, |steps|, k, a(k))
  {
    if Closed(s) || a(0).Err? {
      TurnedAway(steps, a, s);
    } else {
      assert Supplies(steps, 0);
      var sk := RunsToFront(steps, a, 0, s.voucher, s, s);
      FrontOfStop(steps, a, 0, s);
      VoucherAtFront(steps, a, g, Front(steps, a, 0, s), s, sk);
      LastStop(steps, a, s);
    }
  }

  lemma VoucherAtFront(steps: seq<Step>, a: Answers, g: nat, k: nat, s0: State, s: State)
    requires LooksUp(steps, g) && 1 <= k <= |steps| - 2 && Live(steps, k, s0, s)
    requires s.voucher == (s0.voucher || GivenBelow(steps, k))
    requires k < |steps| - 2 ==> Stops(steps[k], a(k), s0)
    ensures Run(steps, a, k, s).st.voucher <==>
      if k < g then s0.voucher
      else k == |steps| - 2 && (s0.voucher || steps[g].given) && EndsHolding(steps, a)
  {
    VoucherAt(steps, g, k);
    if k == |steps| - 2 {
      LastVoucher(steps, a, k, s);
    } else if k == 1 {
      StopsAtLookup(steps, a, g, s0, s);
    } else {
      StopsInTheMiddle(steps, a, g, k, s0, s);
    }
  }

  lemma BankLooksUp(accepted: bool, v: bool, card: bool, topUp: bool, bill: bool)
    ensures LooksUp(BankSteps(accepted, v, card, topUp, bill), 3)
  {
  }

  /** UpdateBankStatus. */
  lemma BankStatusVoucher(m: BankMessage, a: Answers, s: State)
    requires Idle(s) == s
    ensures
      var k := FirstStop(UpdateBankStatus(m), a, 0, s);
      Handle(BankStatus(m, a), s).st.voucher <==> HeldAfter(s.voucher, m.voucher, 3, 10, k, a(k))
  {
    BankLooksUp(m.code == "200", m.voucher, IsCard(m.sub), IsTopUp(m.sub), IsBill(m.sub));
    GatedVoucher(UpdateBankStatus(m), a, 3, s);
  }

  /** BuyCardWithToken with an OTP. */
  lemma BuyCardOtpVoucher(v: bool, a: Answers, s: State)
    requires Idle(s) == s
    ensures
      var k := FirstStop(Sagas.BuyCardWithOtp(v), a, 0, s);
      Handle(Event.BuyCardWithOtp(v, a), s).st.voucher <==> HeldAfter(s.voucher, v, 2, 8, k, a(k))
  {
    OtpLooksUp(v);
    GatedVoucher(Sagas.BuyCardWithOtp(v), a, 2, s);
  }

  lemma OtpLooksUp(v: bool)
    ensures LooksUp(Sagas.BuyCardWithOtp(v), 2)
  {
  }

  // ----- ConfirmOrder, whose confirmation is nil-safe and whose first steps run without a transaction

  lemma ConfirmOrderStops(v: bool, w: bool, a: Answers, k: nat, s0: State, s: State)
    requires k < 3 && Live(Sagas.ConfirmOrder(v, w), k, s0, s) && Stops(Sagas.ConfirmOrder(v, w)[k], a(k), s0)
    ensures Run(Sagas.ConfirmOrder(v, w), a, k, s).st.voucher == (s.voucher && k == 0)
  {
    var steps := Sagas.ConfirmOrder(v, w);
    OneStep(steps, a, k, s);
    var s1 := Exec(steps[k], a(k), s).st;
    assert Exec(steps[k], a(k), s).Fail?;
    if k == 0 {
      ProcessUndone(steps, s1);
    } else if k == 1 {
      ReversedEarly(steps, s1);
    } else {
      var s2 := FailIfOpen(CancelIfOpen(s1)).st;
      assert Undo(steps[2], s1) == Next(s2);
      assert Unwind(steps, 3, s1) == Unwind(steps, 2, s2);
      ReversedEarly(steps, s2);
    }
  }

  lemma ProcessUndone(steps: seq<Step>, s: State)
    requires steps != [] && steps[0].ProcessOrder?
    ensures Unwind(steps, 1, s).st.voucher == s.voucher
  {
    var o := FailIfOpen(s);
    assert Undo(steps[0], s) == o;
    if o.Next? { assert Unwind(steps, 0, o.st) == Result(Errored, o.st); }
  }

  lemma ReversedEarly(steps: seq<Step>, s: State)
    requires |steps| > 1 && steps[0].ProcessOrder? && RepairOf(steps[1]) == Reverse(false) && s.order.Some?
    ensures !Unwind(steps, 2, s).st.voucher
  {
    var s1 := Log(s.(voucher := false), VoucherReverse);
    assert Undo(steps[1], s) == Next(s1);
    ProcessUndone(steps, s1);
  }

  /** The bank step fails: both records are there, and the reversal is reached. */
  lemma OpenWalletStops(v: bool, w: bool, a: Answers, s0: State, s: State)
    requires Live(Sagas.ConfirmOrder(v, w), 3, s0, s) && Stops(External(w, WalletFunding), a(3), s0)
    ensures !Run(Sagas.ConfirmOrder(v, w), a, 3, s).st.voucher
  {
    var steps := Sagas.ConfirmOrder(v, w);
    assert steps[3] == External(w, WalletFunding) && !Supplies(steps, 3);
    OneStep(steps, a, 3, s);
    MiddleFails(steps[3], a(3), s);
    UnwindVoucher(steps, 4, Exec(steps[3], a(3), s).st);
    VoucherAt(steps, 1, 4);
  }

  /** The nil-safe confirmation parks the order, and the bank step's compensation then dereferences nil. */
  lemma NilSafeConfirm(steps: seq<Step>, r: Reply, s: State)
    requires |steps| > 4 && steps[4] == ConfirmTx(true) && steps[3].External? && NonNil(s) && VoucherBelow(steps, 4)
    requires r.Err? && !s.pending
    ensures Unwind(steps, 5, ConfirmTrans(s, r).st).st.voucher <==> s.voucher && !r.record
  {
    var s1 := ConfirmTrans(s, r).st;
    if r.record {
      UnwindVoucher(steps, 5, s1);
    } else {
      var s2 := ParkOrder(s1).st;
      assert Undo(steps[4], s1) == Next(s2);
      assert Undo(steps[3], s2) == Crash(s2);
      assert Unwind(steps, 5, s1) == Unwind(steps, 4, s2) == Result(Panicked, s2);
    }
  }

  lemma ConfirmOrderEnds(v: bool, w: bool, a: Answers, s0: State, s: State)
    requires Live(Sagas.ConfirmOrder(v, w), 4, s0, s) && !s.pending
    ensures Run(Sagas.ConfirmOrder(v, w), a, 4, s).st.voucher <==> s.voucher && EndsHolding(Sagas.ConfirmOrder(v, w), a)
  {
    var steps := Sagas.ConfirmOrder(v, w);
    assert !Supplies(steps, 4);
    VoucherAt(steps, 1, 4);
    VoucherAt(steps, 1, 5);
    var o := ConfirmTrans(s, a(4));
    assert Exec(steps[4], a(4), s) == o;
    OneStep(steps, a, 4, s);
    if a(4).Err? { NilSafeConfirm(steps, a(4), s); } else { LastWrite(steps, a, 5, o.st); }
  }

  lemma ConfirmOrderVoucher(v: bool, w: bool, lookup: Reply, a: Answers, s: State)
    requires Idle(s) == s
    ensures
      var k := FirstStop(Sagas.ConfirmOrder(v, w), a, 0, s);
      Handle(Event.ConfirmOrder(v, w, lookup, a), s).st.voucher <==>
        if LetsIn(lookup, s) then HeldAfter(s.voucher, v, 1, 6, k, a(k)) else s.voucher
  {
    if LetsIn(lookup, s) {
      var steps, s1 := Sagas.ConfirmOrder(v, w), s.(order := s.db);
      assert steps[2].InitTx?;
      var sk := RunsToFront(steps, a, 0, s.voucher, s, s1);
      FrontOfStop(steps, a, 0, s);
      VoucherAtConfirmFront(v, w, a, Front(steps, a, 0, s), s, sk);
      LastStop(steps, a, s);
    }
  }

  lemma VoucherAtConfirmFront(v: bool, w: bool, a: Answers, k: nat, s0: State, s: State)
    requires k <= 4 && Live(Sagas.ConfirmOrder(v, w), k, s0, s) && !s.pending
    requires s.voucher == (s0.voucher || GivenBelow(Sagas.ConfirmOrder(v, w), k))
    requires k < 4 ==> Stops(Sagas.ConfirmOrder(v, w)[k], a(k), s0)
    ensures Run(Sagas.ConfirmOrder(v, w), a, k, s).st.voucher <==>
      if k == 0 then s0.voucher else k == 4 && (s0.voucher || v) && EndsHolding(Sagas.ConfirmOrder(v, w), a)
  {
    var steps := Sagas.ConfirmOrder(v, w);
    VoucherAt(steps, 1, k);
    if k == 4 {
      ConfirmOrderEnds(v, w, a, s0, s);
    } else if k == 3 {
      OpenWalletStops(v, w, a, s0, s);
    } else {
      ConfirmOrderStops(v, w, a, k, s0, s);
    }
  }

  // ----- vouchers consumed by a failed order

  /** The order is FAILED, so that no later run gets to a reversal, and the voucher is consumed. */
  predicate Stranded(s: State) { s.db == Some(Failed) && s.voucher }

  /**
   A delivery strands the voucher exactly if it was held and the delivery stops between the gate and the voucher step.
   */
  lemma BankStrands(m: BankMessage, a: Answers, s: State)
    requires Idle(s) == s && !Closed(s)
    ensures Stranded(Handle(BankStatus(m, a), s).st) <==> s.voucher && 1 <= FirstStop(UpdateBankStatus(m), a, 0, s) < 3
  {
    Redelivery.BankHalt(m, a, s);
    DeliveryOutcome(m, a, s);
    BankStatusVoucher(m, a, s);
    var k := FirstStop(UpdateBankStatus(m), a, 0, s);
    if 1 <= k < 10 { StrandedPair(m.voucher, k, a(k), s, Handle(BankStatus(m, a), s)); }
  }

  lemma StrandedPair(given: bool, k: nat, r: Reply, s: State, res: Result)
    requires !Closed(s) && 1 <= k < 10 && HaltedDelivery(k, r, s, res) && (k >= 8 ==> r.Err?)
    requires res.st.voucher <==> HeldAfter(s.voucher, given, 3, 10, k, r)
    ensures Stranded(res.st) <==> s.voucher && k < 3
  {
  }

  /** ConfirmOrder strands it exactly if it was held and the first write fails with a record. */
  lemma ConfirmOrderStrands(v: bool, w: bool, lookup: Reply, a: Answers, s: State)
    requires Idle(s) == s && !Closed(s)
    ensures Stranded(Handle(Event.ConfirmOrder(v, w, lookup, a), s).st) <==>
      LetsIn(lookup, s) && s.voucher && a(0).Err? && a(0).record
  {
    ConfirmOrderVoucher(v, w, lookup, a, s);
    if LetsIn(lookup, s) {
      var steps, s1 := Sagas.ConfirmOrder(v, w), s.(order := s.db);
      if a(0).Err? {
        FirstWriteFails(steps, a, s1);
      } else {
        assert steps[2].InitTx?;
        var sk := RunsToFront(steps, a, 0, s.voucher, s, s1);
        FrontOfStop(steps, a, 0, s);
        if Front(steps, a, 0, s) == 4 { ConfirmOrderNotFailed(v, w, a, s, sk); }
      }
    }
  }

  lemma FirstWriteFails(steps: seq<Step>, a: Answers, s: State)
    requires steps != [] && steps[0].ProcessOrder? && a(0).Err? && s.order.Some? && s.db.Some? && !Final(s.db.value)
    ensures Run(steps, a, 0, s).st.db == Some(Failed) <==> a(0).record
  {
    OneStep(steps, a, 0, s);
    var s1 := WriteOrder(s, Processing, PutProcessing, a(0)).st;
    var o := FailIfOpen(s1);
    assert Undo(steps[0], s1) == o;
    if o.Next? { assert Unwind(steps, 0, o.st) == Result(Errored, o.st); }
  }

  /** A run that reaches its last write and keeps the voucher leaves the order SUCCESS or as open as it was. */
  lemma LastWriteNotFailed(steps: seq<Step>, a: Answers, i: nat, s: State)
    requires i + 1 == |steps| && steps[i] == SucceedOrder(true) && NonNil(s) && s.db.Some? && !Final(s.db.value)
    requires a(i).Err? ==> !a(i).record
    ensures Run(steps, a, i, s).st.db != Some(Failed)
  {
    var s1 := WriteOrder(s, Success, PutSuccess, a(i)).st;
    assert Exec(steps[i], a(i), s) == WriteOrder(s, Success, PutSuccess, a(i));
    OneStep(steps, a, i, s);
    if a(i).Err? {
      var u := Undo(steps[i], s1);
      assert u.Crash? && u.st.db == s1.db;
    }
  }

  lemma ConfirmOrderNotFailed(v: bool, w: bool, a: Answers, s0: State, s: State)
    requires Live(Sagas.ConfirmOrder(v, w), 4, s0, s) && !s.pending
    ensures EndsHolding(Sagas.ConfirmOrder(v, w), a) ==> Run(Sagas.ConfirmOrder(v, w), a, 4, s).st.db != Some(Failed)
  {
    var steps := Sagas.ConfirmOrder(v, w);
    assert !Supplies(steps, 4);
    var o := ConfirmTrans(s, a(4));
    assert Exec(steps[4], a(4), s) == o;
    OneStep(steps, a, 4, s);
    if EndsHolding(steps, a) {
      if a(4).Err? {
        var s2 := ParkOrder(o.st).st;
        assert Undo(steps[4], o.st) == Next(s2) && Undo(steps[3], s2) == Crash(s2);
        assert Unwind(steps, 5, o.st) == Unwind(steps, 4, s2) == Result(Panicked, s2);
      } else {
        LastWriteNotFailed(steps, a, 5, o.st);
      }
    }
  }

  /** BuyCardWithToken with an OTP never strands a voucher. */
  lemma BuyCardOtpNeverStrands(v: bool, a: Answers, s: State)
    requires Idle(s) == s && !Closed(s)
    ensures !Stranded(Handle(Event.BuyCardWithOtp(v, a), s).st)
  {
    var steps := Sagas.BuyCardWithOtp(v);
    BuyCardOtpVoucher(v, a, s);
    var entered := Otp.FindBoth(steps, a, s);
    if entered {
      OtpLooksUp(v);
      assert Supplies(steps, 0);
      var sk := RunsToFront(steps, a, 0, s.voucher, s, s);
      FrontOfStop(steps, a, 0, s);
      if Front(steps, a, 0, s) == 6 {
        LastStop(steps, a, s);
        if EndsHolding(steps, a) { OtpNotFailed(steps, a, s, sk); }
      }
    }
  }

  lemma OtpNotFailed(steps: seq<Step>, a: Answers, s0: State, s: State)
    requires LooksUp(steps, 2) && |steps| == 8 && Live(steps, 6, s0, s) && EndsHolding(steps, a)
    ensures Run(steps, a, 6, s).st.db != Some(Failed)
  {
    var o := ConfirmTrans(s, a(6));
    assert Exec(steps[6], a(6), s) == o;
    OneStep(steps, a, 6, s);
    if a(6).Err? { assert Undo(steps[6], o.st) == Crash(o.st); } else { LastWriteNotFailed(steps, a, 7, o.st); }
  }

  /**
   Two deliveries that strand a voucher: the first redeems it and panics at the confirmation, the second does not find
   the transaction.
   */
  lemma StrandedByRedelivery(m: BankMessage, first: Answers, second: Answers, s: State)
    requires Idle(s) == s && !Closed(s) && s.tx.Some? && m.code == "200" && m.voucher
    requires (forall i: nat | i < 8 :: first(i) == Ok) && first(8) == Err(false, false)
    requires second(0) == Ok && second(1).Err?
    ensures Stranded(After([BankStatus(m, first)] + ([BankStatus(m, second)] + []), s))
  {
    var s1 := Idle(Handle(BankStatus(m, first), s).st);
    HeldByFirst(m, first, s);
    StrandsNext(m, second, s1);
    Redelivery.AfterFirst(BankStatus(m, first), [BankStatus(m, second)] + [], s);
    Redelivery.AfterFirst(BankStatus(m, second), [], s1);
  }

  /** BuyCardWithToken redeems a voucher and panics at the confirmation: the order is open and the voucher held. */
  lemma CardPanics(a: Answers, s: State)
    requires Idle(s) == s && !Closed(s) && s.tx.Some? && (forall i: nat | i < 6 :: a(i) == Ok)
    requires a(6) == Err(false, false)
    ensures
      var s1 := Handle(Event.BuyCardWithOtp(true, a), s).st;
      !Closed(s1) && s1.tx.Some? && s1.voucher
  {
    var steps := Sagas.BuyCardWithOtp(true);
    FirstStopAt(steps, a, 0, 6, s);
    BuyCardOtpVoucher(true, a, s);
    OtpLooksUp(true);
    assert Supplies(steps, 0);
    var sk := RunsToFront(steps, a, 0, s.voucher, s, s);
    FrontOfStop(steps, a, 0, s);
    NilConfirmKeepsOpen(steps, a, s, sk);
  }

  lemma NilConfirmKeepsOpen(steps: seq<Step>, a: Answers, s0: State, s: State)
    requires LooksUp(steps, 2) && |steps| == 8 && Live(steps, 6, s0, s) && a(6) == Err(false, false)
    ensures !Closed(Run(steps, a, 6, s).st) && Run(steps, a, 6, s).st.tx.Some?
  {
    var o := ConfirmTrans(s, a(6));
    assert Exec(steps[6], a(6), s) == o;
    OneStep(steps, a, 6, s);
    assert Undo(steps[6], o.st) == Crash(o.st);
  }

  /** A wrong OTP after such a run is no stuttering step: it reverses the voucher. */
  lemma WrongOtpReverses(first: Answers, v: bool, wrong: Answers, s: State)
    requires Idle(s) == s && !Closed(s) && s.tx.Some?
    requires (forall i: nat | i < 6 :: first(i) == Ok) && first(6) == Err(false, false)
    requires wrong(0) == wrong(1) == Ok && wrong(3) == WrongOtp
    ensures
      var s1 := Idle(Handle(Event.BuyCardWithOtp(true, first), s).st);
      s1.voucher && Idle(Handle(Event.BuyCardWithOtp(v, wrong), s1).st) == s1.(voucher := false)
  {
    CardPanics(first, s);
    Otp.WrongAttemptEnds(Event.BuyCardWithOtp(v, wrong), Idle(Handle(Event.BuyCardWithOtp(true, first), s).st));
  }

  lemma HeldByFirst(m: BankMessage, a: Answers, s: State)
    requires Idle(s) == s && !Closed(s) && s.tx.Some? && m.code == "200" && m.voucher
    requires (forall i: nat | i < 8 :: a(i) == Ok) && a(8) == Err(false, false)
    ensures !Closed(Handle(BankStatus(m, a), s).st) && Handle(BankStatus(m, a), s).st.voucher
  {
    FirstDeliveryPanics(m, a, s);
    Redelivery.DeliveryCloses(m, a, s);
    BankStatusVoucher(m, a, s);
  }

  lemma StrandsNext(m: BankMessage, a: Answers, s: State)
    requires Idle(s) == s && !Closed(s) && s.voucher && a(0) == Ok && a(1).Err?
    ensures Stranded(Handle(BankStatus(m, a), s).st)
  {
    FirstStopAt(UpdateBankStatus(m), a, 0, 1, s);
    BankStrands(m, a, s);
  }

  lemma FirstDeliveryPanics(m: BankMessage, a: Answers, s: State)
    requires !Closed(s) && s.tx.Some? && m.code == "200" && (forall i: nat | i < 8 :: a(i) == Ok)
    requires a(8) == Err(false, false)
    ensures FirstStop(UpdateBankStatus(m), a, 0, s) == 8
  {
    FirstStopAt(UpdateBankStatus(m), a, 0, 8, s);
  }
}
