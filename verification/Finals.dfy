/** Runs with nothing to undo below their ConfirmTx and SucceedOrder: UpdateCreditPayment and VerifyOTP. */
module Finals {
  import opened Statuses
  import opened Steps
  import opened Gated
  import opened Reaching
  import Sagas
  import Otp

  /** How such a run ends: its exit, the stored order and transaction, and the calls it made. */
  datatype Final = Final(exit: Exit, db: Option<OrderStatus>, tx: Option<TxStatus>, calls: seq<Call>)

  /** By the answers of ConfirmTransaction and of the last order write, from the stored records in s. */
  function FinalOf(nilSafe: bool, confirm: Reply, write: Reply, s: State): Final {
    if confirm.Err? && confirm.record then
      if s.tx == Some(TxPending) then
        var tx := if confirm.applied then Some(TxFinish) else Some(TxPending);
        Final(Errored, Some(Verifying), tx, [TxConfirm, PutVerifying])
      else Final(Errored, Some(Verifying), Some(TxPending), [TxConfirm, TxUpdate, PutVerifying])
    else if confirm.Err? then
      var tx := if confirm.applied then Some(TxFinish) else s.tx;
      if nilSafe then Final(Errored, Some(Verifying), tx, [TxConfirm, PutVerifying])
      else Final(Panicked, s.db, tx, [TxConfirm])
    else if write.Err? && write.record then
      Final(Errored, Some(Verifying), Some(TxPending), [TxConfirm, PutSuccess, TxUpdate, PutVerifying])
    else if write.Err? then
      Final(Panicked, if write.applied then Some(Success) else s.db, Some(TxPending), [TxConfirm, PutSuccess, TxUpdate])
    else Final(Returned, Some(Success), Some(TxFinish), [TxConfirm, PutSuccess])
  }

  /** r is this ending of a run that had made `calls` before. */
  predicate Ends(calls: seq<Call>, f: Final, r: Result) {
    r.exit == f.exit && r.st.db == f.db && r.st.tx == f.tx && r.st.calls == calls + f.calls
  }

  /** Both records as they are stored, the order open, no flag set. */
  predicate AtHand(s: State) {
    && s.order.Some? && s.order == s.db && !Statuses.Final(s.order.value)
    && s.trans.Some? && s.trans == s.tx && !s.pending && !s.rejected
  }

  /** Compensations that change nothing as long as no flag is set. */
  predicate Harmless(step: Step) { RepairOf(step).Nothing? || RepairOf(step).SettleOtp? }

  lemma {:induction false} HarmlessBelow(steps: seq<Step>, n: nat, s: State)
    requires n <= |steps| && !s.pending && !s.rejected && forall j | 0 <= j < n :: Harmless(steps[j])
    ensures Unwind(steps, n, s) == Result(Errored, s)
  {
    if n > 0 {
      assert Undo(steps[n - 1], s) == Next(s);
      HarmlessBelow(steps, n - 1, s);
    }
  }

  lemma ConfirmParks(nilSafe: bool, r: Reply, s: State)
    requires AtHand(s) && r.Err? && (r.record || nilSafe)
    ensures
      var o := Undo(ConfirmTx(nilSafe), ConfirmTrans(s, r).st);
      && o.Next? && !o.st.pending && !o.st.rejected
      && Ends(s.calls, FinalOf(nilSafe, r, Ok, s), Result(Errored, o.st))
  {
  }

  lemma ConfirmFails(steps: seq<Step>, i: nat, r: Reply, s: State)
    requires i < |steps| && steps[i].ConfirmTx? && AtHand(s) && r.Err? && forall j | 0 <= j < i :: Harmless(steps[j])
    ensures Ends(s.calls, FinalOf(steps[i].nilSafe, r, Ok, s), Unwind(steps, i + 1, ConfirmTrans(s, r).st))
  {
    var s1 := ConfirmTrans(s, r).st;
    if r.record || steps[i].nilSafe {
      ConfirmParks(steps[i].nilSafe, r, s);
      var s2 := Undo(steps[i], s1).st;
      assert Unwind(steps, i + 1, s1) == Unwind(steps, i, s2);
      HarmlessBelow(steps, i, s2);
    } else {
      assert Undo(steps[i], s1) == Crash(s1);
    }
  }

  /** The last write fails with a record: both compensations together park the pair. */
  lemma SuccessParks(nilSafe: bool, r: Reply, s: State)
    requires s.order.Some? && s.db.Some? && s.trans == s.tx == Some(TxFinish) && !s.pending && !s.rejected
    requires r.Err? && r.record
    ensures
      var s1 := WriteOrder(s, Success, PutSuccess, r).st;
      var o := Undo(SucceedOrder(true), s1);
      && o.Next? && Undo(ConfirmTx(nilSafe), o.st) == Next(o.st)
      && o.st.db == Some(Verifying) && o.st.tx == Some(TxPending) && !o.st.pending && !o.st.rejected
      && o.st.calls == s.calls + [PutSuccess, TxUpdate, PutVerifying]
  {
  }

  lemma SuccessPanics(r: Reply, s: State)
    requires s.order.Some? && s.db.Some? && s.trans == s.tx == Some(TxFinish) && r.Err? && !r.record
    ensures
      var o := Undo(SucceedOrder(true), WriteOrder(s, Success, PutSuccess, r).st);
      && o.Crash? && o.st.db == (if r.applied then Some(Success) else s.db) && o.st.tx == Some(TxPending)
      && o.st.calls == s.calls + [PutSuccess, TxUpdate]
  {
  }

  lemma LastWriteEnds(steps: seq<Step>, a: Answers, i: nat, s0: State, s: State)
    requires i + 2 == |steps| && steps[i].ConfirmTx? && steps[i + 1] == SucceedOrder(true)
    requires forall j | 0 <= j < i :: Harmless(steps[j])
    requires AtHand(s0) && !a(i).Err? && s == ConfirmTrans(s0, a(i)).st
    ensures Ends(s0.calls, FinalOf(steps[i].nilSafe, a(i), a(i + 1), s0), Run(steps, a, i + 1, s))
  {
    var r := a(i + 1);
    assert s.calls == s0.calls + [TxConfirm];
    assert Exec(steps[i + 1], r, s) == WriteOrder(s, Success, PutSuccess, r);
    OneStep(steps, a, i + 1, s);
    var s1 := WriteOrder(s, Success, PutSuccess, r).st;
    if r.Err? && r.record {
      SuccessParks(steps[i].nilSafe, r, s);
      var s2 := Undo(steps[i + 1], s1).st;
      assert Unwind(steps, i + 2, s1) == Unwind(steps, i + 1, s2) == Unwind(steps, i, s2);
      HarmlessBelow(steps, i, s2);
    } else if r.Err? {
      SuccessPanics(r, s);
    }
  }

  /** The last two steps of such a run, for every pair of answers. */
  lemma RunEnds(steps: seq<Step>, a: Answers, i: nat, s: State)
    requires i + 2 == |steps| && steps[i].ConfirmTx? && steps[i + 1] == SucceedOrder(true)
    requires AtHand(s) && forall j | 0 <= j < i :: Harmless(steps[j])
    ensures Ends(s.calls, FinalOf(steps[i].nilSafe, a(i), a(i + 1), s), Run(steps, a, i, s))
  {
    assert Exec(steps[i], a(i), s) == ConfirmTrans(s, a(i));
    OneStep(steps, a, i, s);
    if a(i).Err? {
      ConfirmFails(steps, i, a(i), s);
    } else {
      LastWriteEnds(steps, a, i, s, ConfirmTrans(s, a(i)).st);
    }
  }

  // ----- UpdateCreditPayment

  /** What a credit notification leaves of an open order with a transaction. */
  function CreditFinal(e: Event, s: State): Final
    requires e.UpdateCredit?
  {
    match e.status
    case CreditSuccess => FinalOf(true, e.a(0), e.a(1), s)
    case CreditFailed =>
      if s.tx == Some(TxFailed) || s.tx == Some(TxPending) then Final(Returned, Some(Failed), s.tx, [PutFailed])
      else Final(Returned, Some(Failed), Some(TxFailed), [TxCancel, PutFailed])
    case CreditVerifying =>
      if e.bank == Ok then FinalOf(true, e.a(0), e.a(1), s)
      else Final(Returned, Some(Verifying), Some(TxPending), [TxUpdate, PutVerifying])
    case CreditOther => Final(Returned, s.db, s.tx, [])
  }

  /** Exactly what UpdateCreditPaymentOrder does, by request status and answers; behind a closed gate, nothing. */
  lemma CreditOutcome(e: Event, s: State)
    requires Idle(s) == s && e.UpdateCredit?
    ensures
      if LetsIn(e.lookup, s) && !e.find.Err? && s.tx.Some? then Ends([], CreditFinal(e, s), Handle(e, s))
      else Handle(e, s) == Result(Errored, s)
  {
    if LetsIn(e.lookup, s) && !e.find.Err? && s.tx.Some? {
      var s1 := s.(order := s.db, trans := s.tx);
      if e.status == CreditSuccess || (e.status == CreditVerifying && e.bank == Ok) {
        RunEnds(Sagas.ConfirmCredit(), e.a, 0, s1);
      }
    }
  }

  // ----- VerifyOTP

  /** VerifyOTP: failing lookups change nothing, then the OTP check as stated, then the last two steps. */
  lemma VerifyOtpOutcome(a: Answers, s: State)
    requires Idle(s) == s && !Closed(s)
    ensures
      var r := Handle(VerifyOtp(a), s);
      if a(0).Err? || a(1).Err? || s.tx.None? then r.exit == Errored && Idle(r.st) == s
      else if a(2) != Ok then Otp.OtpRefused(a(2), s, r)
      else Ends([OtpCheck], FinalOf(false, a(3), a(4), s), r)
  {
    var steps := Sagas.VerifyOtp();
    var entered := Otp.FindBoth(steps, a, s);
    if entered {
      if a(2) != Ok {
        Otp.VerifyOtpRefused(a, s);
      } else {
        var s3 := Otp.OtpPassed(a, s);
        RunEnds(steps, a, 3, s3);
      }
    }
  }
}
