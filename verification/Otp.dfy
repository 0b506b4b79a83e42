/** One-time passwords: VerifyOTP, and BuyCardWithToken when an OTP is given. */
module Otp {
  import opened Statuses
  import opened Steps
  import opened Gated
  import opened Redelivery
  import Sagas

  /** The gateway's client turns unexpected codes into errors; the step sorts the rest. */
  function OtpReply(transportError: bool, code: BankCode): Reply {
    if transportError || (!IsVerifying(code) && !IsSuccess(code) && !IsWrongOtp(code)) then Err(false, true)
    else if IsVerifying(code) then Later
    else if IsWrongOtp(code) then WrongOtp
    else Ok
  }

  /** Each answer stands for one class of codes; 449 belongs to the failure class and is still no failure. */
  lemma OtpReplyClasses(transportError: bool, code: BankCode)
    ensures OtpReply(transportError, code) == Ok <==> !transportError && |code| >= 3 && code[0] == '2'
    ensures OtpReply(transportError, code) == Later <==> !transportError && code == "102"
    ensures OtpReply(transportError, code) == WrongOtp <==> !transportError && code == "449"
    ensures IsFail(code) <==> |code| >= 3 && code[0] == '4'
    ensures !transportError && IsFail(code) ==> (OtpReply(transportError, code).Err? <==> code != "449")
  {
    assert "449"[0] == '4' && "102"[0] == '1';
  }

  // ----- one attempt

  /** What an attempt whose OTP check is answered r, and did not pass, leaves of the order and its transaction. */
  predicate OtpRefused(r: Reply, s: State, res: Result) {
    && res.exit == Errored
    && match r
       case Later => res.st.db == Some(Verifying) && res.st.tx == Some(TxPending)
       case Err(_, _) =>
         if s.tx == Some(TxPending) || s.tx == Some(TxFinish) || s.tx == Some(TxFailed)
         then res.st.db == s.db && res.st.tx == s.tx
         else res.st.db == Some(Failed) && res.st.tx == Some(TxFailed)
       case _ => res.st.db == s.db && res.st.tx == s.tx
  }

  /** The attempt reaches the OTP check in this state. */
  predicate Entered(s0: State, s: State) {
    && s.order == s.db == s0.db && s.db.Some? && !Final(s.db.value) && s.trans == s.tx == s0.tx && s.tx.Some?
    && !s.pending && !s.rejected && s.expired == s0.expired
  }

  lemma OtpStep(r: Reply, s0: State, s: State)
    requires Entered(s0, s) && r != Ok
    ensures Exec(EnterOtp, r, s).Fail?
    ensures
      var s1 := Exec(EnterOtp, r, s).st;
      var o := Undo(EnterOtp, s1);
      && o.Next? && OtpRefused(r, s0, Result(Errored, o.st)) && o.st.order.Some?
      && o.st.voucher == s.voucher && o.st.expired == s.expired
  {
  }

  lemma {:induction false} NothingBelow(steps: seq<Step>, n: nat, s: State)
    requires n <= |steps| && forall i | 0 <= i < n :: RepairOf(steps[i]) == Nothing
    ensures Unwind(steps, n, s) == Result(Errored, s)
  {
    if n > 0 {
      assert Undo(steps[n - 1], s) == Next(s);
      NothingBelow(steps, n - 1, s);
    }
  }

  /** FIND_ORDER and GET INIT TRANSACTION either turn the attempt away unchanged or enter it. */
  lemma FindBoth(steps: seq<Step>, a: Answers, s: State) returns (entered: bool)
    requires |steps| > 2 && steps[0] == FindOrder && steps[1] == FindTx(false) && Idle(s) == s
    ensures entered <==> !Closed(s) && !a(0).Err? && !a(1).Err? && s.tx.Some?
    ensures !entered ==> Run(steps, a, 0, s).exit == Errored && Idle(Run(steps, a, 0, s).st) == s
    ensures entered ==>
      var s2 := s.(order := s.db, trans := s.tx);
      Entered(s, s2) && Run(steps, a, 0, s) == Run(steps, a, 2, s2)
  {
    entered := !Closed(s) && !a(0).Err? && !a(1).Err? && s.tx.Some?;
    if Closed(s) || a(0).Err? {
      TurnedAway(steps, a, s);
    } else {
      var s1 := s.(order := s.db);
      assert Exec(steps[0], a(0), s) == Next(s1);
      assert Run(steps, a, 0, s) == Run(steps, a, 1, s1);
      if entered {
        assert Exec(steps[1], a(1), s1) == Next(s1.(trans := s.tx));
        assert Run(steps, a, 1, s1) == Run(steps, a, 2, s1.(trans := s.tx));
      } else {
        assert Exec(steps[1], a(1), s1) == Fail(s1);
        NothingBelow(steps, 2, s1);
      }
    }
  }

  /**
   A VerifyOTP attempt that does not pass the check: a wrong OTP changes nothing, a timeout parks both records, and a
   bank error fails the order exactly if its transaction was still open.
   */
  lemma VerifyOtpRefused(a: Answers, s: State)
    requires Idle(s) == s && !Closed(s) && s.tx.Some? && !a(0).Err? && !a(1).Err? && a(2) != Ok
    ensures OtpRefused(a(2), s, Handle(VerifyOtp(a), s)) && Handle(VerifyOtp(a), s).st.voucher == s.voucher
  {
    var steps := Sagas.VerifyOtp();
    var _ := FindBoth(steps, a, s);
    var s2 := s.(order := s.db, trans := s.tx);
    OtpStep(a(2), s, s2);
    var s3 := Exec(steps[2], a(2), s2).st;
    var s4 := Undo(steps[2], s3).st;
    assert Unwind(steps, 3, s3) == Unwind(steps, 2, s4);
    NothingBelow(steps, 2, s4);
  }

  /** The same for BuyCardWithToken, whose voucher is reversed on the way out. */
  lemma BuyCardOtpRefused(v: bool, a: Answers, s: State)
    requires Idle(s) == s && !Closed(s) && s.tx.Some? && !a(0).Err? && !a(1).Err? && (v ==> !a(2).Err?) && a(3) != Ok
    ensures OtpRefused(a(3), s, Handle(BuyCardWithOtp(v, a), s)) && !Handle(BuyCardWithOtp(v, a), s).st.voucher
  {
    var steps := Sagas.BuyCardWithOtp(v);
    var _ := FindBoth(steps, a, s);
    var s2 := s.(order := s.db, trans := s.tx);
    var s3 := Exec(steps[2], a(2), s2).st;
    assert Exec(steps[2], a(2), s2) == Next(s3);
    assert Run(steps, a, 2, s2) == Run(steps, a, 3, s3);
    OtpStep(a(3), s, s3);
    var s4 := Exec(steps[3], a(3), s3).st;
    var s5 := Undo(steps[3], s4).st;
    assert Unwind(steps, 4, s4) == Unwind(steps, 3, s5);
    VoucherReversed(steps, s5);
  }

  lemma VoucherReversed(steps: seq<Step>, s: State)
    requires |steps| > 2 && steps[0] == FindOrder && steps[1] == FindTx(false)
    requires RepairOf(steps[2]) == Reverse(false) && s.order.Some?
    ensures Unwind(steps, 3, s) == Result(Errored, Log(s.(voucher := false), VoucherReverse))
  {
    var s1 := Log(s.(voucher := false), VoucherReverse);
    assert Undo(steps[2], s) == Next(s1);
    NothingBelow(steps, 2, s1);
  }

  // ----- wrong attempts are stuttering steps

  /** An attempt whose OTP check, if it is reached at all, is answered with 449. */
  predicate WrongAttempt(e: Event) {
    (e.VerifyOtp? && e.a(2) == WrongOtp) || (e.BuyCardWithOtp? && e.a(3) == WrongOtp)
  }

  /** The attempt does not come as far as a voucher that an earlier run left redeemed. */
  predicate LeavesVoucher(e: Event, s: State)
    requires WrongAttempt(e)
  {
    !s.voucher || e.VerifyOtp? || Closed(s) || s.tx.None? || e.a(0).Err? || e.a(1).Err?
  }

  /** A wrong attempt, whatever its other answers, ends in an error with at most the voucher reversed. */
  lemma WrongAttemptEnds(e: Event, s: State)
    requires Idle(s) == s && WrongAttempt(e)
    ensures Handle(e, s).exit == Errored
    ensures Idle(Handle(e, s).st) == if LeavesVoucher(e, s) then s else s.(voucher := false)
  {
    if e.VerifyOtp? {
      var entered := FindBoth(Sagas.VerifyOtp(), e.a, s);
      if entered {
        VerifyOtpRefused(e.a, s);
        RunKeepsExpiry(Sagas.VerifyOtp(), e.a, 0, s);
      }
    } else {
      var entered := FindBoth(Sagas.BuyCardWithOtp(e.voucher), e.a, s);
      if entered { WrongCardAttempt(e, s); }
    }
  }

  lemma WrongCardAttempt(e: Event, s: State)
    requires Idle(s) == s && WrongAttempt(e) && e.BuyCardWithOtp?
    requires !Closed(s) && s.tx.Some? && !e.a(0).Err? && !e.a(1).Err?
    ensures Handle(e, s).exit == Errored && Idle(Handle(e, s).st) == s.(voucher := false)
  {
    var steps := Sagas.BuyCardWithOtp(e.voucher);
    if e.voucher && e.a(2).Err? {
      var s2 := s.(order := s.db, trans := s.tx);
      var _ := FindBoth(steps, e.a, s);
      VoucherReversed(steps, Exec(steps[2], e.a(2), s2).st);
    } else {
      BuyCardOtpRefused(e.voucher, e.a, s);
      RunKeepsExpiry(steps, e.a, 0, s);
    }
  }

  /**
   A wrong attempt leaves stored order, transaction and voucher ledger as they were exactly if it does not come to a
   voucher left redeemed by an earlier run, which BuyCardWithToken then reverses.
   */
  lemma WrongOtpStutters(e: Event, s: State)
    requires Idle(s) == s && WrongAttempt(e)
    ensures Idle(Handle(e, s).st) == s <==> LeavesVoucher(e, s)
  {
    WrongAttemptEnds(e, s);
  }

  /** Any number of wrong attempts leaves everything as it was exactly if each alone does. */
  lemma {:induction false} WrongAttemptsStutter(wrong: seq<Event>, s: State)
    requires Idle(s) == s && forall e | e in wrong :: WrongAttempt(e)
    ensures After(wrong, s) == s <==> forall e | e in wrong :: LeavesVoucher(e, s)
    ensures After(wrong, s) == s || After(wrong, s) == s.(voucher := false)
  {
    if wrong != [] {
      var s1 := Idle(Handle(wrong[0], s).st);
      assert wrong == [wrong[0]] + wrong[1..];
      WrongAttemptEnds(wrong[0], s);
      AfterFirst(wrong[0], wrong[1..], s);
      WrongAttemptsStutter(wrong[1..], s1);
    }
  }

  /**
   Then k wrong attempts followed by other runs are those runs alone; otherwise they are those runs with the voucher
   reversed.
   */
  lemma WrongAttemptsDropOut(wrong: seq<Event>, rest: seq<Event>, s: State)
    requires Idle(s) == s && forall e | e in wrong :: WrongAttempt(e)
    ensures
      After(wrong + rest, s) ==
        After(rest, if forall e | e in wrong :: LeavesVoucher(e, s) then s else s.(voucher := false))
  {
    WrongAttemptsStutter(wrong, s);
    AfterConcat(wrong, rest, s);
  }

  lemma {:induction false} AfterConcat(events: seq<Event>, rest: seq<Event>, s: State)
    ensures After(events + rest, s) == After(rest, After(events, s))
  {
    if events == [] {
      assert events + rest == rest;
    } else {
      assert events + rest == [events[0]] + (events[1..] + rest) && events == [events[0]] + events[1..];
      AfterFirst(events[0], events[1..] + rest, s);
      AfterFirst(events[0], events[1..], s);
      AfterConcat(events[1..], rest, Idle(Handle(events[0], s).st));
    }
  }

  // ----- a confirmation without a record can be repeated

  /** ConfirmTransaction fails without a record: the run panics and leaves everything as it was. */
  lemma ConfirmPanics(a: Answers, s: State)
    requires Idle(s) == s && !Closed(s) && s.tx.Some?
    requires a(0) == a(1) == a(2) == Ok && a(3) == Err(false, false)
    ensures
      var r := Handle(VerifyOtp(a), s);
      r.exit == Panicked && Idle(r.st) == s && Tally(r.st.calls, TxConfirm) == 1
  {
    var steps := Sagas.VerifyOtp();
    var s3 := OtpPassed(a, s);
    var s4 := Log(s3.(trans := None), TxConfirm);
    assert Exec(steps[3], a(3), s3) == Fail(s4);
    assert Undo(steps[3], s4) == Crash(s4);
    assert Unwind(steps, 4, s4) == Result(Panicked, s4);
    TallyAppend([OtpCheck], [TxConfirm], TxConfirm);
  }

  /** The OTP is accepted: the run goes on at ConfirmTx. */
  lemma OtpPassed(a: Answers, s: State) returns (s3: State)
    requires Idle(s) == s && !Closed(s) && s.tx.Some? && !a(0).Err? && !a(1).Err? && a(2) == Ok
    ensures s3 == s.(order := s.db, trans := s.tx, calls := [OtpCheck])
    ensures Handle(VerifyOtp(a), s) == Run(Sagas.VerifyOtp(), a, 3, s3)
  {
    var steps := Sagas.VerifyOtp();
    var _ := FindBoth(steps, a, s);
    var s2 := s.(order := s.db, trans := s.tx);
    s3 := s2.(calls := [OtpCheck]);
    assert Log(s2, OtpCheck) == s3;
    assert Exec(steps[2], a(2), s2) == Next(s3);
    assert Run(steps, a, 2, s2) == Run(steps, a, 3, s3);
  }
}
