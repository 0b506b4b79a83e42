/** What the create-and-pay sagas promise, over every sequence of answers. */
module Guarantees {
  import opened Statuses
  import opened Steps
  import opened Sagas
  import opened Settlement

  /** Order and transaction agree at the end of a run exactly if its first failure is not one that tears them apart. */
  lemma Agreement(steps: seq<Step>, a: Answers, s0: State)
    requires Shaped(steps) && Start(steps, s0)
    ensures
      var k := FirstFailure(steps, a, 0);
      Agree(s0, Run(steps, a, 0, s0).st) <==> k == |steps| || !Tears(steps, s0, steps[k], a(k))
  {
    RunOutcome(steps, a, s0);
  }

  /** A call that fails returns a record all the same. */
  predicate KeepsRecord(r: Reply) { r.Err? ==> r.record }

  /**
   With records, every run ends in an agreeing pair and never panics, lost acknowledgements included; only an InitOrder
   without compensation must not have stored the order it failed to return.
   */
  lemma AgreementWithRecords(steps: seq<Step>, a: Answers, s0: State)
    requires Shaped(steps) && Start(steps, s0)
    requires forall i: nat :: KeepsRecord(a(i))
    requires forall i | 0 <= i < |steps| && steps[i] == InitOrder(false) :: a(i).Err? ==> !a(i).applied
    ensures Agree(s0, Run(steps, a, 0, s0).st) && Run(steps, a, 0, s0).exit != Panicked
  {
    RunOutcome(steps, a, s0);
    assert KeepsRecord(a(FirstFailure(steps, a, 0)));
  }

  // ----- counting calls

  /** The calls only compensations make. */
  predicate Repairing(c: Call) { c == TxCancel || c == TxUpdate || c == PutFailed || c == PutVerifying }

  lemma {:induction false} TraceCount(steps: seq<Step>, n: nat, c: Call)
    requires n <= |steps| && Repairing(c)
    ensures Tally(Trace(steps, n), c) == 0
  {
    if n > 0 {
      TraceCount(steps, n - 1, c);
      ForwardNeverRepairs(steps[n - 1], c);
      TallyAppend(Trace(steps, n - 1), CallOf(steps[n - 1]), c);
    }
  }

  lemma ForwardNeverRepairs(step: Step, c: Call)
    requires Repairing(c)
    ensures Tally(CallOf(step), c) == 0
  {
    TallyOfShort(CallOf(step), c);
  }

  /** Rank of the step whose forward function makes this call. */
  function CallRank(c: Call): nat
    requires c == Delivery || c == TxConfirm
  {
    if c == Delivery then 5 else 7
  }

  lemma CallOfRank(step: Step, c: Call)
    requires (c == Delivery || c == TxConfirm) && Rank(step) < CallRank(c)
    ensures Tally(CallOf(step), c) == 0
  {
    TallyOfShort(CallOf(step), c);
  }

  lemma {:induction false} TraceByRank(steps: seq<Step>, n: nat, m: nat, c: Call)
    requires Shaped(steps) && m <= n < |steps|
    requires (c == Delivery || c == TxConfirm) && Rank(steps[n]) <= CallRank(c)
    ensures Tally(Trace(steps, m), c) == 0
  {
    if m > 0 {
      RanksIncrease(steps, m - 1, n);
      TraceByRank(steps, n, m - 1, c);
      CallOfRank(steps[m - 1], c);
      TallyAppend(Trace(steps, m - 1), CallOf(steps[m - 1]), c);
    }
  }

  lemma {:induction false} RollbackCount(steps: seq<Step>, n: nat, pending: bool, c: Call)
    requires Shaped(steps) && n < |steps| && c != VoucherReverse
    ensures Tally(Rollback(steps, n, pending), c) ==
      if (c == TxCancel || c == PutFailed) && !pending && CallsOutBelow(steps, n) then 1 else 0
  {
    if n > 0 {
      RollbackCount(steps, n - 1, pending, c);
      TallyAppend(RollbackOne(steps[n - 1], pending), Rollback(steps, n - 1, pending), c);
      TallyOfShort(RollbackOne(steps[n - 1], pending), c);
      if steps[n - 1].External? {
        BelowByRank(steps, n - 1, n - 1);
      }
    }
  }

  /** How often a run whose first failing step is k makes a repairing call. */
  lemma RepairCount(steps: seq<Step>, k: nat, r: Reply, s0: State, res: Result, c: Call)
    requires Shaped(steps) && k < |steps| && FailedRun(steps, k, r, s0, res) && Repairing(c)
    ensures
      Tally(res.st.calls, c) == Tally(Reaction(steps[k], r), c) +
        if (c == TxCancel || c == PutFailed) && res.exit == Errored && !r.Later?
          && CallsOutBelow(steps, Resume(steps[k], k)) then 1 else 0
  {
    var tail := if res.exit == Panicked then [] else Rollback(steps, Resume(steps[k], k), r.Later?);
    TraceCount(steps, k + 1, c);
    TallyAppend(Trace(steps, k + 1), Reaction(steps[k], r), c);
    TallyAppend(Trace(steps, k + 1) + Reaction(steps[k], r), tail, c);
    RollbackCount(steps, Resume(steps[k], k), r.Later?, c);
  }

  // ----- sagas with a provider or bank step

  /**
   Failures whose call kept its record, in a saga that calls a provider or a bank. Only a pending answer parks
   the pair; a failure after delivery first parks the order, and the external step's compensation then refuses it.
   */
  lemma ExternalOutcome(steps: seq<Step>, a: Answers, s0: State)
    requires Shaped(steps) && Start(steps, s0) && CallsOut(steps)
    requires var k := FirstFailure(steps, a, 0); k < |steps| && KeepsRecord(a(k)) && Rank(steps[k]) >= 2
    ensures
      var r := Run(steps, a, 0, s0);
      var k := FirstFailure(steps, a, 0);
      var cancels, updates := Tally(r.st.calls, TxCancel), Tally(r.st.calls, TxUpdate);
      var fails, parks := Tally(r.st.calls, PutFailed), Tally(r.st.calls, PutVerifying);
      && r.exit == Errored
      && (Rank(steps[k]) < 5 ==> r.st.db == Some(Failed) && fails == 1 && parks == 0)
      && (Rank(steps[k]) < 5 ==> r.st.tx == if steps[k].InitTx? && a(k).applied then Some(TxFailed) else None)
      && (steps[k].External? && a(k).Later? ==>
            r.st.db == Some(Verifying) && r.st.tx == Some(TxPending) && cancels == fails == 0 && updates == parks == 1)
      && ((steps[k].External? && a(k).Err?) || steps[k].CardFee? ==>
            r.st.db == Some(Failed) && r.st.tx == Some(TxFailed) && cancels == fails == 1 && updates == parks == 0)
      && (Rank(steps[k]) >= 7 ==>
            r.st.db == Some(Failed) && r.st.tx == Some(TxFailed) && cancels == fails == 1 && updates == parks == 1)
  {
    RunOutcome(steps, a, s0);
    var k := FirstFailure(steps, a, 0);
    var r := Run(steps, a, 0, s0);
    ExternalCounts(steps, k, a(k), s0, r);
    assert Repairing(TxCancel) && Repairing(TxUpdate) && Repairing(PutFailed) && Repairing(PutVerifying);
  }

  /** `n` is how often call c is made when `step` fails in such a saga. */
  predicate ExternalCount(step: Step, r: Reply, c: Call, n: nat) {
    match c
    case TxCancel => n == (if Rank(step) >= 4 && !r.Later? then 1 else 0)
    case PutFailed => n == (if r.Later? then 0 else 1)
    case _ => n == (if r.Later? || Rank(step) >= 7 then 1 else 0)
  }

  lemma ExternalCounts(steps: seq<Step>, k: nat, r: Reply, s0: State, res: Result)
    requires Shaped(steps) && k < |steps| && FailedRun(steps, k, r, s0, res) && Fails(steps[k], r)
    requires CallsOut(steps) && KeepsRecord(r) && 2 <= Rank(steps[k])
    ensures forall c | Repairing(c) :: ExternalCount(steps[k], r, c, Tally(res.st.calls, c))
  {
    var n := Resume(steps[k], k);
    if n < k { assert Follows(steps[n], steps[k]); }
    BelowByRank(steps, n, n);
    if Rank(steps[n]) >= 6 { WholeByRank(steps, n, |steps|); }
    PositionByRank(steps, k);
    forall c | Repairing(c) ensures ExternalCount(steps[k], r, c, Tally(res.st.calls, c)) {
      RepairCount(steps, k, r, s0, res, c);
      ReactionCount(steps[k], r, c);
    }
  }

  lemma ReactionCount(step: Step, r: Reply, c: Call)
    requires Fails(step, r) && KeepsRecord(r) && 2 <= Rank(step) <= 8 && Repairing(c)
    ensures
      var parks := r.Later? || Rank(step) >= 7;
      Tally(Reaction(step, r), c) ==
        if parks then (if c == TxUpdate || c == PutVerifying then 1 else 0)
        else if c == PutFailed || (c == TxCancel && Rank(step) >= 4) then 1
        else 0
  {
    TallyOfShort(Reaction(step, r), c);
  }

  // ----- sagas without one

  /**
   However a run of an internal saga ends, panics included, it writes FAILED or VERIFYING at most once and never
   both, and the order never ends FAILED once ConfirmTransaction was attempted.
   */
  lemma InternalWrites(steps: seq<Step>, a: Answers, s0: State)
    requires Shaped(steps) && Start(steps, s0) && !CallsOut(steps)
    ensures
      var st := Run(steps, a, 0, s0).st;
      && Tally(st.calls, PutFailed) + Tally(st.calls, PutVerifying) <= 1
      && (Tally(st.calls, TxConfirm) > 0 ==> st.db != Some(Failed))
  {
    RunOutcome(steps, a, s0);
    var k := FirstFailure(steps, a, 0);
    if k < |steps| {
      InternalFailure(steps, k, a(k), s0, Run(steps, a, 0, s0));
    } else {
      TraceCount(steps, |steps|, PutFailed);
      TraceCount(steps, |steps|, PutVerifying);
    }
  }

  lemma InternalFailure(steps: seq<Step>, k: nat, r: Reply, s0: State, res: Result)
    requires Shaped(steps) && k < |steps| && Fails(steps[k], r) && FailedRun(steps, k, r, s0, res) && !CallsOut(steps)
    ensures Tally(res.st.calls, PutFailed) + Tally(res.st.calls, PutVerifying) <= 1
    ensures Tally(res.st.calls, TxConfirm) > 0 ==> res.st.db != Some(Failed)
  {
    NoExternalBelow(steps, Resume(steps[k], k), |steps|);
    RepairCount(steps, k, r, s0, res, PutFailed);
    RepairCount(steps, k, r, s0, res, PutVerifying);
    OneWrite(steps[k], r);
    if Rank(steps[k]) < 7 {
      NoConfirmYet(steps, k, r, s0, res);
    } else {
      PositionByRank(steps, k);
    }
  }

  lemma {:induction false} NoExternalBelow(steps: seq<Step>, n: nat, m: nat)
    requires n <= m <= |steps| && !CallsOutBelow(steps, m)
    ensures !CallsOutBelow(steps, n)
  {
    if n < m { NoExternalBelow(steps, n, m - 1); }
  }

  lemma OneWrite(step: Step, r: Reply)
    ensures Tally(Reaction(step, r), PutFailed) + Tally(Reaction(step, r), PutVerifying) <= 1
  {
    TallyOfShort(Reaction(step, r), PutFailed);
    TallyOfShort(Reaction(step, r), PutVerifying);
  }

  lemma NoConfirmYet(steps: seq<Step>, k: nat, r: Reply, s0: State, res: Result)
    requires Shaped(steps) && k < |steps| && Rank(steps[k]) < 7 && FailedRun(steps, k, r, s0, res)
    ensures Tally(res.st.calls, TxConfirm) == 0
  {
    var n := Resume(steps[k], k);
    var tail := if res.exit == Panicked then [] else Rollback(steps, n, r.Later?);
    assert Follows(steps[k], steps[k + 1]);
    TraceByRank(steps, k + 1, k + 1, TxConfirm);
    ReactionHasNoConfirm(steps[k], r);
    TallyAppend(Trace(steps, k + 1), Reaction(steps[k], r), TxConfirm);
    TallyAppend(Trace(steps, k + 1) + Reaction(steps[k], r), tail, TxConfirm);
    RollbackCount(steps, n, r.Later?, TxConfirm);
  }

  lemma ReactionHasNoConfirm(step: Step, r: Reply)
    ensures Tally(Reaction(step, r), TxConfirm) == 0
  {
    TallyOfShort(Reaction(step, r), TxConfirm);
  }

  // ----- vouchers

  /** Confirmation or last write without a record: the reversal below is not reached. */
  predicate KeepsVoucher(steps: seq<Step>, k: nat, r: Reply)
    requires k < |steps|
  {
    Rank(steps[k]) >= 7 && Panics(steps, steps[k], r)
  }

  /**
   The order's trace id is in the ledger of used vouchers after a run exactly when it was there before or a voucher was
   given, and the run either met no failure or kept the voucher by a panic; or when it was there before and the run
   failed above every voucher step.
   */
  lemma VoucherConservation(steps: seq<Step>, a: Answers, s0: State)
    requires Shaped(steps) && Start(steps, s0)
    ensures
      var r := Run(steps, a, 0, s0);
      var k := FirstFailure(steps, a, 0);
      r.st.voucher <==>
        if k == |steps| || KeepsVoucher(steps, k, a(k)) then s0.voucher || VoucherGiven(steps)
        else s0.voucher && (Rank(steps[k]) < 3 || !VoucherBelow(steps, |steps|))
  {
    RunOutcome(steps, a, s0);
    var k := FirstFailure(steps, a, 0);
    if k < |steps| {
      BelowByRank(steps, k, k);
      if Rank(steps[k]) >= 4 { WholeByRank(steps, k, |steps|); }
      if Rank(steps[k]) >= 3 { VoucherWhole(steps, k, |steps|); } else { NoVoucherBelow(steps, k, k); }
    }
  }

  // ----- every named saga

  lemma NamedAgreement(saga: Saga, a: Answers, s0: State)
    requires Start(StepsOf(saga), s0)
    ensures
      var steps := StepsOf(saga);
      var k := FirstFailure(steps, a, 0);
      Agree(s0, Run(steps, a, 0, s0).st) <==> k == |steps| || !Tears(steps, s0, steps[k], a(k))
  {
    EverySagaShaped(saga);
    Agreement(StepsOf(saga), a, s0);
  }

  /** Voucher conservation, saga by saga. */
  lemma NamedVoucher(saga: Saga, a: Answers, s0: State)
    requires Start(StepsOf(saga), s0)
    ensures
      var steps := StepsOf(saga);
      var k := FirstFailure(steps, a, 0);
      Run(steps, a, 0, s0).st.voucher <==>
        if k == |steps| || KeepsVoucher(steps, k, a(k)) then s0.voucher || TakesVoucher(saga)
        else s0.voucher && (Rank(steps[k]) < 3 || !HasVoucherStep(saga))
  {
    EverySagaShaped(saga);
    Families(saga);
    VoucherSteps(saga);
    VoucherConservation(StepsOf(saga), a, s0);
  }

  lemma VoucherSteps(saga: Saga)
    ensures VoucherBelow(StepsOf(saga), |StepsOf(saga)|) <==> HasVoucherStep(saga)
  {
    var steps := StepsOf(saga);
    VouchersBelow(steps, |steps|);
    if saga.BuyCardSaga? {
      assert steps[if saga.atm then 1 else 2].UseVoucher?;
    } else if saga.PayBillSaga? {
      assert steps[if saga.atm then 2 else 3].UseVoucher?;
    } else if saga.ConfirmOrderSaga? {
      assert steps[1].UseVoucher?;
    } else if HasVoucherStep(saga) {
      assert steps[2].UseVoucher?;
    }
  }

  lemma {:induction false} VouchersBelow(steps: seq<Step>, n: nat)
    requires n <= |steps|
    ensures VoucherBelow(steps, n) <==> exists i | 0 <= i < n :: steps[i].UseVoucher?
  {
    if n > 0 { VouchersBelow(steps, n - 1); }
  }

  /** The internal sagas: StaticQR, FundWal2Wal, Transfer, Deposit, Withdraw, UpdateBalanceVA and the Lixi payout. */
  lemma NamedInternalWrites(saga: Saga, a: Answers, s0: State)
    requires Start(StepsOf(saga), s0) && !IsExternal(saga)
    ensures
      var st := Run(StepsOf(saga), a, 0, s0).st;
      && Tally(st.calls, PutFailed) + Tally(st.calls, PutVerifying) <= 1
      && (Tally(st.calls, TxConfirm) > 0 ==> st.db != Some(Failed))
  {
    EverySagaShaped(saga);
    Families(saga);
    InternalWrites(StepsOf(saga), a, s0);
  }

  /** BuyCard when ConfirmTransaction fails and its client returns no record, as the generated client does. */
  lemma BuyCardWithoutRecord(s0: State)
    requires Start(BuyCard(false, true), s0)
    ensures
      var a: Answers := (i: nat) => if i == 6 then Err(false, false) else Ok;
      var r := Run(BuyCard(false, true), a, 0, s0);
      && r.exit == Panicked && r.st.db == Some(Processing) && r.st.tx == Some(TxProcessing) && r.st.voucher
      && !Agree(s0, r.st)
  {
    var steps := BuyCard(false, true);
    var a: Answers := (i: nat) => if i == 6 then Err(false, false) else Ok;
    BuyCardShaped(false, true);
    assert steps[6] == ConfirmTx(false);
    FirstFailureAt(steps, a, 0, 6);
    StartsBefore(steps, s0);
    var s := RunForward(steps, a, 0, s0, s0);
    NilConfirm(steps, a, 6, s);
    BuyCardVoucher();
  }

  lemma {:induction false} FirstFailureAt(steps: seq<Step>, a: Answers, i: nat, k: nat)
    requires i <= k < |steps| && Fails(steps[k], a(k)) && forall j | i <= j < k :: !Fails(steps[j], a(j))
    ensures FirstFailure(steps, a, i) == k
    decreases k - i
  {
    if i < k { FirstFailureAt(steps, a, i + 1, k); }
  }

  /** The failing confirmation leaves a nil transaction, which its own compensation dereferences. */
  lemma NilConfirm(steps: seq<Step>, a: Answers, k: nat, s: State)
    requires k < |steps| && steps[k] == ConfirmTx(false) && a(k) == Err(false, false) && s.trans.Some?
    ensures
      var r := Run(steps, a, k, s);
      r.exit == Panicked && r.st.db == s.db && r.st.tx == s.tx && r.st.voucher == s.voucher
  {
    var s1 := Log(s.(trans := None), TxConfirm);
    assert Exec(steps[k], a(k), s) == Fail(s1);
    assert Undo(steps[k], s1) == Crash(s1);
    assert Unwind(steps, k + 1, s1) == Result(Panicked, s1);
  }

  lemma BuyCardVoucher()
    ensures GivenBelow(BuyCard(false, true), 6)
  {
    var steps := BuyCard(false, true);
    KindsBelow(steps, 6);
    assert steps[2] == UseVoucher(true, true);
  }
}
