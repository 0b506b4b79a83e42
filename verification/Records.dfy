/** Gated runs whose failing calls still return a record never dereference nil, so they confirm at most once. */
module Records {
  import opened Statuses
  import opened Steps
  import opened Gated
  import opened BankStatus
  import Sagas
  import Otp

  predicate Recorded(r: Reply) { r.Err? ==> r.record }

  /** Every answer of the run comes with a record. */
  ghost predicate AllRecorded(e: Event) {
    e.OrderCancel? || e.OrderUpdate? || forall i: nat :: Recorded(e.a(i))
  }

  lemma ExecRecorded(step: Step, r: Reply, s: State)
    requires NonNil(s) && Recorded(r)
    ensures !Exec(step, r, s).Crash? && NonNil(Exec(step, r, s).st)
  {
  }

  lemma {:induction false} RunRecorded(steps: seq<Step>, a: Answers, i: nat, s: State)
    requires i <= |steps| && NonNil(s) && forall j: nat :: Recorded(a(j))
    ensures Run(steps, a, i, s).exit != Panicked
    decreases |steps| - i
  {
    if i < |steps| {
      assert Recorded(a(i));
      ExecRecorded(steps[i], a(i), s);
      var o := Exec(steps[i], a(i), s);
      if o.Next? { RunRecorded(steps, a, i + 1, o.st); } else { UnwindNeverNil(steps, i + 1, o.st); }
    }
  }

  // ----- ConfirmOrder, whose first steps run without a transaction

  /** Compensations that look at the order only, or at a transaction that may be nil. */
  predicate NeedsOrderOnly(step: Step) {
    var r := RepairOf(step); r.Nothing? || r.FailGuarded? || r.Reverse? || r.CancelGuarded?
  }

  lemma UndoNeedsOrder(step: Step, s: State)
    requires NeedsOrderOnly(step) && s.order.Some?
    ensures Undo(step, s).Next? && Undo(step, s).st.order.Some?
  {
  }

  lemma {:induction false} UnwindNeedsOrder(steps: seq<Step>, n: nat, s: State)
    requires n <= |steps| && s.order.Some? && forall j | 0 <= j < n :: NeedsOrderOnly(steps[j])
    ensures Unwind(steps, n, s).exit == Errored
  {
    if n > 0 {
      UndoNeedsOrder(steps[n - 1], s);
      UnwindNeedsOrder(steps, n - 1, Undo(steps[n - 1], s).st);
    }
  }

  lemma ExecNeedsOrder(step: Step, r: Reply, s: State)
    requires (step.ProcessOrder? || step.UseVoucher? || step.InitTx?) && s.order.Some? && Recorded(r)
    ensures !Exec(step, r, s).Crash? && Exec(step, r, s).st.order.Some?
    ensures step.InitTx? ==> Exec(step, r, s).st.trans.Some?
  {
  }

  lemma {:induction false} ConfirmOrderRecorded(steps: seq<Step>, a: Answers, i: nat, s: State)
    requires i <= 3 < |steps| && s.order.Some? && (i == 3 ==> s.trans.Some?) && forall j: nat :: Recorded(a(j))
    requires steps[0].ProcessOrder? && steps[1].UseVoucher? && steps[2].InitTx?
    ensures Run(steps, a, i, s).exit != Panicked
    decreases 3 - i
  {
    if i == 3 {
      RunRecorded(steps, a, 3, s);
    } else {
      assert Recorded(a(i));
      ExecNeedsOrder(steps[i], a(i), s);
      var o := Exec(steps[i], a(i), s);
      if o.Next? { ConfirmOrderRecorded(steps, a, i + 1, o.st); } else { UnwindNeedsOrder(steps, i + 1, o.st); }
    }
  }

  // ----- UpdateBankStatus

  lemma BankStatusRecorded(m: BankMessage, a: Answers, s: State)
    requires Idle(s) == s && !Closed(s) && forall j: nat :: Recorded(a(j))
    ensures Handle(BankStatus(m, a), s).exit != Panicked
  {
    var steps := UpdateBankStatus(m);
    if a(0).Err? {
      TurnedAway(steps, a, s);
    } else {
      var s1 := s.(order := s.db);
      assert Exec(steps[0], a(0), s) == Next(s1);
      assert Run(steps, a, 0, s) == Run(steps, a, 1, s1);
      if a(1).Err? || s.tx.None? {
        assert Exec(steps[1], a(1), s1) == Fail(s1);
        FindTxUndo(steps, s1);
      } else {
        RunRecorded(steps, a, 2, s1.(trans := s.tx));
      }
    }
  }

  // ----- theorems

  lemma NoPanic(e: Event, s: State)
    requires Idle(s) == s && AllRecorded(e)
    ensures Handle(e, s).exit != Panicked
  {
    if Closed(s) {
      ClosedIsAbsorbing(e, s);
    } else {
      var s2 := s.(order := s.db, trans := s.tx);
      match e {
        case VerifyOtp(a) =>
          var entered := Otp.FindBoth(Sagas.VerifyOtp(), a, s);
          if entered { RunRecorded(Sagas.VerifyOtp(), a, 2, s2); }
        case BuyCardWithOtp(v, a) =>
          var entered := Otp.FindBoth(Sagas.BuyCardWithOtp(v), a, s);
          if entered { RunRecorded(Sagas.BuyCardWithOtp(v), a, 2, s2); }
        case BankStatus(m, a) => BankStatusRecorded(m, a, s);
        case ConfirmOrder(v, w, _, a) => ConfirmOrderRecorded(Sagas.ConfirmOrder(v, w), a, 0, s.(order := s.db));
        case UpdateCredit(_, _, _, _, a) =>
          if s.tx.Some? { RunRecorded(Sagas.ConfirmCredit(), a, 0, s2); }
        case _ =>
      }
    }
  }
}
