/** BuyCardWithToken with an OTP: the pair it leaves, by the step that stops it. */
module TokenCard {
  import opened Statuses
  import opened Steps
  import opened Settlement
  import opened Gated
  import opened BankStatus
  import opened Reaching
  import Sagas
  import Otp

  /** The order and the transaction a run leaves that first stops at step k, answered r. */
  function CardPair(k: nat, r: Reply, s0: State): (Option<OrderStatus>, Option<TxStatus>) {
    if k == 3 && r.Err? then
      if s0.tx == Some(TxPending) || s0.tx == Some(TxFinish) || s0.tx == Some(TxFailed) then (s0.db, s0.tx)
      else (Some(Failed), Some(TxFailed))
    else if (k == 3 || k == 4) && r.Later? then (Some(Verifying), Some(TxPending))
    else if k <= 3 then (s0.db, s0.tx)
    else if k <= 5 || (k < 8 && r.Err? && r.record) then (Some(Failed), Some(TxFailed))
    else if k == 6 then (s0.db, if r.Err? && r.applied then Some(TxFinish) else s0.tx)
    else if k == 7 then (if r.Err? && r.applied then Some(Success) else s0.db, Some(TxPending))
    else (Some(Success), Some(TxFinish))
  }

  function CardExit(k: nat, r: Reply): Exit {
    if k == 8 then Returned else if k >= 6 && r.Err? && !r.record then Panicked else Errored
  }

  predicate Ends(k: nat, r: Reply, s0: State, res: Result) {
    res.exit == CardExit(k, r) && (res.st.db, res.st.tx) == CardPair(k, r, s0)
  }

  /** Records and stores as the lookups found them. */
  predicate Found(s0: State, s: State) {
    && s.order == s.db == s0.db && s.db.Some? && !Final(s.db.value)
    && s.trans == s.tx == s0.tx && s.tx.Some? && !s.pending && !s.rejected
  }

  // ----- compensations below the card step

  lemma OtpKeepsSettled(s: State)
    requires (RefusedState(s) || ParkedState(s)) && !s.rejected && s.trans.Some?
    ensures Undo(EnterOtp, s) == Next(s)
  {
  }

  /** A settled pair stays settled down to the lookups. */
  lemma SettledBelowCard(v: bool, s: State)
    requires (RefusedState(s) || (ParkedState(s) && s.pending)) && !s.rejected && s.trans.Some? && s.db.Some?
    requires s.tx.Some?
    ensures
      var r := Unwind(Sagas.BuyCardWithOtp(v), 4, s);
      r.exit == Errored && r.st.db == s.db && r.st.tx == s.tx
  {
    var steps := Sagas.BuyCardWithOtp(v);
    OtpKeepsSettled(s);
    assert steps[3] == EnterOtp;
    assert Unwind(steps, 4, s) == Unwind(steps, 3, s);
    UnwindSettled(steps, 3, s);
  }

  /** The card step's compensation refuses whatever was not pending. */
  lemma RefusedAtCard(v: bool, s: State)
    requires Settleable(s)
    ensures
      var r := Unwind(Sagas.BuyCardWithOtp(v), 5, s);
      r.exit == Errored && r.st.db == Some(Failed) && r.st.tx == Some(TxFailed)
  {
    var steps := Sagas.BuyCardWithOtp(v);
    var s1 := FailOrder(CancelTrans(s)).st;
    assert Undo(steps[4], s) == Next(s1);
    assert Unwind(steps, 5, s) == Unwind(steps, 4, s1);
    SettledBelowCard(v, s1);
  }

  lemma RefusedAtFee(v: bool, s: State)
    requires Settleable(s)
    ensures
      var r := Unwind(Sagas.BuyCardWithOtp(v), 6, s);
      r.exit == Errored && r.st.db == Some(Failed) && r.st.tx == Some(TxFailed)
  {
    var steps := Sagas.BuyCardWithOtp(v);
    assert steps[5] == CardFee(true) && Undo(steps[5], s) == Next(s);
    assert Unwind(steps, 6, s) == Unwind(steps, 5, s);
    RefusedAtCard(v, s);
  }

  /** A confirmation or last write that failed with a record. */
  lemma RefusedLate(v: bool, n: nat, s: State)
    requires Settleable(s) && 7 <= n <= 8
    ensures
      var r := Unwind(Sagas.BuyCardWithOtp(v), n, s);
      r.exit == Errored && r.st.db == Some(Failed) && r.st.tx == Some(TxFailed)
  {
    var steps := Sagas.BuyCardWithOtp(v);
    var s1 := Undo(steps[n - 1], s).st;
    assert steps[6] == ConfirmTx(false) && steps[7] == SucceedOrder(true);
    ParkSettleable(steps[n - 1], s);
    assert Unwind(steps, n, s) == Unwind(steps, n - 1, s1);
    if n == 8 { RefusedLate(v, 7, s1); } else { RefusedAtFee(v, s1); }
  }

  // ----- the stopping step

  lemma CardStops(v: bool, r: Reply, s0: State, s: State)
    requires Found(s0, s) && (r.Err? || r.Later?)
    ensures Ends(4, r, s0, Unwind(Sagas.BuyCardWithOtp(v), 5, Exec(External(true, CardSale), r, s).st))
  {
    var steps := Sagas.BuyCardWithOtp(v);
    var s1 := Exec(External(true, CardSale), r, s).st;
    if r.Later? {
      ParksPending(CardSale, s);
      var s2 := Undo(External(true, CardSale), s1).st;
      assert Unwind(steps, 5, s1) == Unwind(steps, 4, s2);
      SettledBelowCard(v, s2);
    } else {
      RefusedAtCard(v, s1);
    }
  }

  lemma ConfirmStops(v: bool, r: Reply, s0: State, s: State)
    requires Found(s0, s) && r.Err?
    ensures Ends(6, r, s0, Unwind(Sagas.BuyCardWithOtp(v), 7, ConfirmTrans(s, r).st))
  {
    var steps := Sagas.BuyCardWithOtp(v);
    var s1 := ConfirmTrans(s, r).st;
    if r.record {
      RefusedLate(v, 7, s1);
    } else {
      assert steps[6] == ConfirmTx(false) && Undo(steps[6], s1) == Crash(s1);
    }
  }

  lemma SuccessStops(v: bool, r: Reply, s0: State, s: State)
    requires s.order == s.db == s0.db && s.db.Some? && s.trans == s.tx == Some(TxFinish) && !s.pending && !s.rejected
    requires r.Err?
    ensures Ends(7, r, s0, Unwind(Sagas.BuyCardWithOtp(v), 8, WriteOrder(s, Success, PutSuccess, r).st))
  {
    var steps := Sagas.BuyCardWithOtp(v);
    var s1 := WriteOrder(s, Success, PutSuccess, r).st;
    if r.record {
      RefusedLate(v, 8, s1);
    } else {
      assert steps[7] == SucceedOrder(true);
      var u := Undo(steps[7], s1);
      assert u.Crash? && u.st.db == s1.db && u.st.tx == Some(TxPending);
    }
  }

  /** From the card step on. */
  lemma CardAndAfter(v: bool, a: Answers, s0: State, s: State)
    requires Found(s0, s)
    ensures
      var k := FirstStop(Sagas.BuyCardWithOtp(v), a, 4, s0);
      Ends(k, a(k), s0, Run(Sagas.BuyCardWithOtp(v), a, 4, s))
  {
    var steps := Sagas.BuyCardWithOtp(v);
    OneStep(steps, a, 4, s);
    if a(4).Err? || a(4).Later? {
      CardStops(v, a(4), s0, s);
    } else {
      var s1 := Deliver(s, CardSale);
      assert Exec(steps[4], a(4), s) == Next(s1);
      OneStep(steps, a, 5, s1);
      if a(5).Err? { RefusedAtFee(v, s1); } else { ConfirmAndAfter(v, a, s0, s1); }
    }
  }

  lemma ConfirmAndAfter(v: bool, a: Answers, s0: State, s: State)
    requires Found(s0, s)
    ensures
      var k := FirstStop(Sagas.BuyCardWithOtp(v), a, 6, s0);
      Ends(k, a(k), s0, Run(Sagas.BuyCardWithOtp(v), a, 6, s))
  {
    var steps := Sagas.BuyCardWithOtp(v);
    OneStep(steps, a, 6, s);
    if a(6).Err? {
      ConfirmStops(v, a(6), s0, s);
    } else {
      var s1 := ConfirmTrans(s, a(6)).st;
      OneStep(steps, a, 7, s1);
      if a(7).Err? { SuccessStops(v, a(7), s0, s1); }
    }
  }

  // ----- theorem

  /** For each of the eight steps a run can stop at and each answer there: its exit and the pair it leaves. */
  lemma CardOutcome(v: bool, a: Answers, s: State)
    requires Idle(s) == s && !Closed(s)
    ensures
      var k := FirstStop(Sagas.BuyCardWithOtp(v), a, 0, s);
      Ends(k, a(k), s, Handle(Event.BuyCardWithOtp(v, a), s))
  {
    var steps := Sagas.BuyCardWithOtp(v);
    var entered := Otp.FindBoth(steps, a, s);
    if entered {
      var s2 := s.(order := s.db, trans := s.tx);
      assert FirstStop(steps, a, 0, s) == FirstStop(steps, a, 1, s) == FirstStop(steps, a, 2, s);
      if v && a(2).Err? {
        OneStep(steps, a, 2, s2);
        Otp.VoucherReversed(steps, Exec(steps[2], a(2), s2).st);
      } else {
        AfterVoucher(v, a, s, s2);
      }
    }
  }

  lemma AfterVoucher(v: bool, a: Answers, s: State, s2: State)
    requires Idle(s) == s && !Closed(s) && s.tx.Some? && !a(0).Err? && !a(1).Err? && (v ==> !a(2).Err?)
    requires s2 == s.(order := s.db, trans := s.tx)
    requires Handle(Event.BuyCardWithOtp(v, a), s) == Run(Sagas.BuyCardWithOtp(v), a, 2, s2)
    ensures
      var k := FirstStop(Sagas.BuyCardWithOtp(v), a, 2, s);
      Ends(k, a(k), s, Handle(Event.BuyCardWithOtp(v, a), s))
  {
    var steps := Sagas.BuyCardWithOtp(v);
    if a(3) != Ok {
      Otp.BuyCardOtpRefused(v, a, s);
    } else {
      var s3 := Exec(steps[2], a(2), s2).st;
      OneStep(steps, a, 2, s2);
      assert Exec(steps[2], a(2), s2) == Next(s3) && Found(s, s3);
      OneStep(steps, a, 3, s3);
      assert Exec(steps[3], a(3), s3) == Next(Log(s3, OtpCheck));
      CardAndAfter(v, a, s, Log(s3, OtpCheck));
    }
  }
}
