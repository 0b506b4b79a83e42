/** Operations on an existing order: each goes through GetValidOrder, and one run follows the other. */
module Gated {
  import opened Statuses
  import opened Steps
  import Sagas

  /** The SubOrderType values that select a product step of UpdateBankStatus. */
  predicate IsCard(sub: string) { sub in ["BUYDATA", "BUYCARD"] }

  predicate IsTopUp(sub: string) { sub == "TOPUPCARD" }

  predicate IsBill(sub: string) {
    sub in ["PAYBILLWATER", "PAYBILLELECTRIC", "PAYBILLLOAN", "PAYBILLINTERNET", "PAYBILLTELEPHONE", "PAYBILLTV"]
  }

  /** A bank message: its error code, with the order's sub type and whether the order carries a voucher code. */
  datatype BankMessage = BankMessage(code: BankCode, sub: string, voucher: bool)

  function UpdateBankStatus(m: BankMessage): seq<Step> {
    BankSteps(m.code == "200", m.voucher, IsCard(m.sub), IsTopUp(m.sub), IsBill(m.sub))
  }

  function BankSteps(accepted: bool, voucher: bool, card: bool, topUp: bool, bill: bool): seq<Step> {
    [FindOrder, FindTx(true), RejectBankFailure(accepted), UseVoucher(voucher, false),
     External(card, CardSale), CardFee(false), External(topUp, Airtime), External(bill, BillPayment),
     ConfirmTx(false), SucceedOrder(true)]
  }

  datatype CreditStatus = CreditSuccess | CreditFailed | CreditVerifying | CreditOther

  /** `lookup` answers GetValidOrder's read where it is not itself a saga step, `find` the transaction lookup. */
  datatype Event =
    | ConfirmOrder(voucher: bool, openWallet: bool, lookup: Reply, a: Answers)
    | VerifyOtp(a: Answers)
    | BuyCardWithOtp(voucher: bool, a: Answers)
    | UpdateCredit(status: CreditStatus, lookup: Reply, find: Reply, bank: Reply, a: Answers)
    | BankStatus(m: BankMessage, a: Answers)
    | OrderCancel(lookup: Reply, write: Reply, find: Reply, initial: bool)
    | OrderUpdate(lookup: Reply, change: Option<OrderStatus>, write: Reply)

  /** Between runs nothing is captured. */
  function Idle(s: State): State {
    s.(order := None, trans := None, pending := false, rejected := false, calls := [], products := [])
  }

  predicate Closed(s: State) { Gate(s.db, s.expired) != Valid }

  function Credit(e: Event, s: State): Result
    requires e.UpdateCredit? && s.order.Some? && s.trans.Some?
  {
    match e.status
    case CreditSuccess => Run(Sagas.ConfirmCredit(), e.a, 0, s)
    case CreditFailed => Result(Returned, FailIfOpen(CancelIfOpen(s)).st)
    case CreditVerifying =>
      if e.bank == Ok then Run(Sagas.ConfirmCredit(), e.a, 0, s)
      else
        var s1 := ParkTrans(s);
        Result(Returned, Log(s1.(order := Some(Verifying), db := Replace(s1, Verifying)), PutVerifying))
    case CreditOther => Result(Returned, s)
  }

  function Cancel(e: Event, s: State): Result
    requires e.OrderCancel? && s.order.Some?
  {
    if e.write.Err? then Result(Errored, s.(db := if e.write.applied then Replace(s, Cancelled) else s.db))
    else
      var s1 := s.(order := Some(Cancelled), db := Replace(s, Cancelled));
      Result(Returned, if e.find.Err? || s.tx.None? || !e.initial then s1 else CancelTrans(s1))
  }

  function Update(e: Event, s: State): Result
    requires e.OrderUpdate? && s.order.Some?
  {
    var status := if e.change.Some? then e.change.value else s.order.value;
    if e.write.Err? then Result(Errored, s.(db := if e.write.applied then Replace(s, status) else s.db))
    else Result(Returned, s.(order := Some(status), db := Replace(s, status)))
  }

  /** GetValidOrder ahead of the rest of the operation. */
  predicate LetsIn(lookup: Reply, s: State) { !lookup.Err? && !Closed(s) }

  /** One run. ConfirmOrder, UpdateCredit, OrderCancel and OrderUpdate pass the gate before anything else happens. */
  function Handle(e: Event, s: State): Result {
    match e
    case VerifyOtp(a) => Run(Sagas.VerifyOtp(), a, 0, s)
    case BuyCardWithOtp(v, a) => Run(Sagas.BuyCardWithOtp(v), a, 0, s)
    case BankStatus(m, a) => Run(UpdateBankStatus(m), a, 0, s)
    case ConfirmOrder(v, w, lookup, a) =>
      if LetsIn(lookup, s) then Run(Sagas.ConfirmOrder(v, w), a, 0, s.(order := s.db)) else Result(Errored, s)
    case UpdateCredit(_, lookup, find, _, _) =>
      if LetsIn(lookup, s) && !find.Err? && s.tx.Some? then Credit(e, s.(order := s.db, trans := s.tx))
      else Result(Errored, s)
    case OrderCancel(lookup, _, _, _) =>
      if LetsIn(lookup, s) then Cancel(e, s.(order := s.db)) else Result(Errored, s)
    case OrderUpdate(lookup, _, _) =>
      if LetsIn(lookup, s) then Update(e, s.(order := s.db)) else Result(Errored, s)
  }

  // ----- ConfirmTransaction is attempted at most once

  /** Sagas that confirm and then succeed in their last two steps and do neither before. */
  predicate ConfirmsLast(steps: seq<Step>) {
    && |steps| >= 2
    && steps[|steps| - 2].ConfirmTx? && steps[|steps| - 1].SucceedOrder?
    && forall i | 0 <= i < |steps| - 2 :: !steps[i].ConfirmTx? && !steps[i].SucceedOrder? && !steps[i].InitOrder?
  }

  predicate Shut(s: State) {
    s.order == s.db && (s.db == Some(Verifying) || s.db == Some(Failed))
  }

  lemma ParkStaysShut(s: State, nilSafe: bool)
    requires Shut(s)
    ensures Shut(ParkBoth(s, nilSafe).st) && Shut(ParkOrder(s).st)
  {
  }

  lemma UndoOtpStaysShut(s: State)
    requires Shut(s)
    ensures Shut(UndoOtp(s).st)
  {
  }

  lemma UndoStaysShut(step: Step, s: State)
    requires Shut(s)
    ensures Shut(Undo(step, s).st)
  {
    match RepairOf(step) {
      case Park(nilSafe) => ParkStaysShut(s, nilSafe);
      case ParkOrderOnly => ParkStaysShut(s, false);
      case SettleExternal => ParkStaysShut(s, false);
      case SettleOtp => UndoOtpStaysShut(s);
      case CancelGuarded => assert Shut(CancelIfOpen(s));
      case _ =>
    }
  }

  lemma {:induction false} UnwindStaysShut(steps: seq<Step>, n: nat, s: State)
    requires n <= |steps| && Shut(s)
    ensures Shut(Unwind(steps, n, s).st)
  {
    if n > 0 {
      UndoStaysShut(steps[n - 1], s);
      if Undo(steps[n - 1], s).Next? { UnwindStaysShut(steps, n - 1, Undo(steps[n - 1], s).st); }
    }
  }

  /** The calls that commit to something: only forward functions make them. */
  predicate Committing(c: Call) { c == TxInit || c == TxConfirm || c == Delivery || c == VoucherUse }

  /** s1 has made the calls of s and then some, none of them a commitment. */
  predicate OnlyRepairs(s: State, s1: State) {
    && s.calls <= s1.calls
    && forall i | |s.calls| <= i < |s1.calls| :: !Committing(s1.calls[i])
  }

  lemma ParkOnlyRepairs(s: State, nilSafe: bool)
    ensures OnlyRepairs(s, ParkOrder(s).st)
    ensures OnlyRepairs(s, ParkTransIfOpen(s, nilSafe).st)
  {
  }

  lemma ParkBothOnlyRepairs(s: State, nilSafe: bool)
    ensures OnlyRepairs(s, ParkBoth(s, nilSafe).st)
  {
    ParkOnlyRepairs(s, nilSafe);
    ParkOnlyRepairs(ParkTransIfOpen(s, nilSafe).st, nilSafe);
  }

  lemma RefuseOnlyRepairs(s: State)
    ensures OnlyRepairs(s, FailOrder(CancelTrans(s)).st)
    ensures OnlyRepairs(s, FailIfOpen(CancelIfOpen(s)).st)
  {
  }

  lemma FailOnlyRepairs(s: State)
    ensures OnlyRepairs(s, FailIfOpen(s).st)
  {
  }

  lemma ReverseOnlyRepairs(closes: bool, s: State)
    ensures OnlyRepairs(s, Mend(Reverse(closes), s).st)
  {
    var s1 := Log(s.(voucher := false), VoucherReverse);
    FailOnlyRepairs(s1);
  }

  lemma UndoOtpOnlyRepairs(s: State)
    ensures OnlyRepairs(s, UndoOtp(s).st)
  {
    ParkOnlyRepairs(s, false);
    ParkOnlyRepairs(ParkOrder(s).st, false);
    RefuseOnlyRepairs(s);
  }

  lemma UndoOnlyRepairs(step: Step, s: State)
    ensures OnlyRepairs(s, Undo(step, s).st)
  {
    match RepairOf(step) {
      case SettleOtp => UndoOtpOnlyRepairs(s);
      case Park(nilSafe) => ParkBothOnlyRepairs(s, nilSafe);
      case ParkOrderOnly => ParkOnlyRepairs(s, false);
      case SettleExternal => ParkBothOnlyRepairs(s, false); RefuseOnlyRepairs(s);
      case CancelGuarded => RefuseOnlyRepairs(s);
      case Reverse(closes) => ReverseOnlyRepairs(closes, s);
      case FailGuarded => FailOnlyRepairs(s);
      case Nothing =>
    }
  }

  lemma {:induction false} UnwindOnlyRepairs(steps: seq<Step>, n: nat, s: State)
    requires n <= |steps|
    ensures OnlyRepairs(s, Unwind(steps, n, s).st)
  {
    if n > 0 {
      UndoOnlyRepairs(steps[n - 1], s);
      if Undo(steps[n - 1], s).Next? { UnwindOnlyRepairs(steps, n - 1, Undo(steps[n - 1], s).st); }
    }
  }

  /** The commitment a forward function can make. */
  function Commits(step: Step): Option<Call> {
    match step
    case UseVoucher(given, _) => if given then Some(VoucherUse) else None
    case InitTx => Some(TxInit)
    case External(applies, _) => if applies then Some(Delivery) else None
    case ConfirmTx(_) => Some(TxConfirm)
    case _ => None
  }

  /** s1 has made the calls of s and then some, no commitment among them but `step`'s own. */
  predicate OwnCommitment(step: Step, s: State, s1: State) {
    && s.calls <= s1.calls
    && forall i | |s.calls| <= i < |s1.calls| :: Committing(s1.calls[i]) ==> Commits(step) == Some(s1.calls[i])
  }

  lemma WriteCommitsNothing(s: State, status: OrderStatus, c: Call, r: Reply)
    requires !Committing(c)
    ensures OnlyRepairs(s, WriteOrder(s, status, c, r).st)
  {
  }

  lemma RejectCommitsNothing(accepted: bool, r: Reply, s: State)
    ensures OnlyRepairs(s, Exec(RejectBankFailure(accepted), r, s).st)
  {
  }

  lemma ExecCommits(step: Step, r: Reply, s: State)
    ensures OwnCommitment(step, s, Exec(step, r, s).st)
  {
    match step {
      case ProcessOrder => WriteCommitsNothing(s, Processing, PutProcessing, r);
      case SucceedOrder(_) => WriteCommitsNothing(s, Success, PutSuccess, r);
      case RejectBankFailure(accepted) => RejectCommitsNothing(accepted, r, s);
      case InitOrder(_) => assert Exec(step, r, s).st.calls == s.calls + [OrderCreate];
      case EnterOtp => assert Exec(step, r, s).st.calls == s.calls + [OtpCheck];
      case _ =>
        if Commits(step).Some? { CommitsByOneCall(step, r, s); } else { SilentStep(step, r, s); }
    }
  }

  /** Lookups and steps that do not apply call nothing that is recorded. */
  lemma SilentStep(step: Step, r: Reply, s: State)
    requires Commits(step).None? && !step.InitOrder? && !step.EnterOtp?
    requires !step.ProcessOrder? && !step.SucceedOrder? && !step.RejectBankFailure?
    ensures Exec(step, r, s).st.calls == s.calls
  {
  }

  lemma ExecKeepsStored(step: Step, r: Reply, s: State)
    requires !step.InitOrder?
    ensures Exec(step, r, s).st.db.Some? <==> s.db.Some?
  {
    match step {
      case ProcessOrder => WriteFrame(s, Processing, PutProcessing, r);
      case SucceedOrder(_) => WriteFrame(s, Success, PutSuccess, r);
      case RejectBankFailure(accepted) => RejectFrame(accepted, r, s);
      case _ =>
    }
  }

  lemma WriteFrame(s: State, status: OrderStatus, c: Call, r: Reply)
    ensures WriteOrder(s, status, c, r).st.db.Some? <==> s.db.Some?
    ensures WriteOrder(s, status, c, r).st.products == s.products
  {
  }

  lemma RejectFrame(accepted: bool, r: Reply, s: State)
    ensures Exec(RejectBankFailure(accepted), r, s).st.db.Some? <==> s.db.Some?
    ensures Exec(RejectBankFailure(accepted), r, s).st.products == s.products
  {
  }

  /** Compensations neither create nor lose the stored order, and leave its expiry alone. */
  lemma UndoFrame(step: Step, s: State)
    ensures Undo(step, s).st.expired == s.expired && (Undo(step, s).st.db.Some? <==> s.db.Some?)
  {
    match RepairOf(step) {
      case Park(nilSafe) => ParkFrame(s, nilSafe);
      case SettleExternal => ParkFrame(s, false);
      case SettleOtp => OtpFrame(s);
      case Nothing =>
      case Reverse(_) => FailFrame(Log(s.(voucher := false), VoucherReverse));
      case CancelGuarded => FailFrame(CancelIfOpen(s));
      case FailGuarded => FailFrame(s);
      case ParkOrderOnly =>
    }
  }

  lemma FailFrame(s: State)
    ensures FailIfOpen(s).st.expired == s.expired && (FailIfOpen(s).st.db.Some? <==> s.db.Some?)
  {
  }

  lemma ParkFrame(s: State, nilSafe: bool)
    ensures ParkBoth(s, nilSafe).st.expired == s.expired && (ParkBoth(s, nilSafe).st.db.Some? <==> s.db.Some?)
  {
  }

  lemma OtpFrame(s: State)
    ensures UndoOtp(s).st.expired == s.expired && (UndoOtp(s).st.db.Some? <==> s.db.Some?)
  {
  }

  lemma SameTally(calls: seq<Call>, more: seq<Call>, c: Call)
    requires calls <= more && forall i | |calls| <= i < |more| :: more[i] != c
    ensures Tally(more, c) == Tally(calls, c)
  {
    SameTallyTo(calls, more, |more|, c);
  }

  lemma {:induction false} SameTallyTo(calls: seq<Call>, more: seq<Call>, n: nat, c: Call)
    requires calls <= more && |calls| <= n <= |more| && forall i | |calls| <= i < |more| :: more[i] != c
    ensures TallyTo(more, n, c) == Tally(calls, c)
  {
    if n > |calls| { SameTallyTo(calls, more, n - 1, c); } else { TallyPrefix(calls, more, n, c); }
  }

  lemma ExecTally(step: Step, r: Reply, s: State, c: Call)
    requires Committing(c)
    ensures Tally(Exec(step, r, s).st.calls, c) <= Tally(s.calls, c) + if Commits(step) == Some(c) then 1 else 0
  {
    var calls := Exec(step, r, s).st.calls;
    if Commits(step) == Some(c) {
      CommitsByOneCall(step, r, s);
      TallyAppend(s.calls, [c], c);
      TallyOfShort([c], c);
    } else {
      ExecCommits(step, r, s);
      SameTally(s.calls, calls, c);
    }
  }

  lemma CommitsByOneCall(step: Step, r: Reply, s: State)
    requires Commits(step).Some?
    ensures Exec(step, r, s).st.calls == s.calls || Exec(step, r, s).st.calls == s.calls + [Commits(step).value]
  {
  }

  /** How many steps from position i on can make this commitment. */
  function CommitsFrom(steps: seq<Step>, i: nat, c: Call): nat
    requires i <= |steps|
    decreases |steps| - i
  {
    if i == |steps| then 0 else (if Commits(steps[i]) == Some(c) then 1 else 0) + CommitsFrom(steps, i + 1, c)
  }

  /** No run makes a commitment more often than it has steps for it, compensations included. */
  lemma {:induction false} RunTally(steps: seq<Step>, a: Answers, i: nat, s: State, c: Call)
    requires i <= |steps| && Committing(c)
    ensures Tally(Run(steps, a, i, s).st.calls, c) <= Tally(s.calls, c) + CommitsFrom(steps, i, c)
    decreases |steps| - i
  {
    if i < |steps| {
      var o := Exec(steps[i], a(i), s);
      ExecTally(steps[i], a(i), s, c);
      if o.Next? { RunTally(steps, a, i + 1, o.st, c); }
      if o.Fail? {
        UnwindOnlyRepairs(steps, i + 1, o.st);
        SameTally(o.st.calls, Unwind(steps, i + 1, o.st).st.calls, c);
      }
    }
  }

  /** Either the run confirms nothing, or it confirms once and, unless it panicked, leaves the order final. */
  predicate ConfirmsOnce(s: State, r: Result) {
    var n := Tally(s.calls, TxConfirm);
    || Tally(r.st.calls, TxConfirm) == n
    || (Tally(r.st.calls, TxConfirm) == n + 1 && (r.exit != Panicked ==> r.st.db.Some? && Final(r.st.db.value)))
  }

  lemma ParkingShuts(step: Step, s: State)
    requires step.ConfirmTx? || step.SucceedOrder?
    requires s.db.Some? && s.order != Some(Verifying)
    ensures Undo(step, s).Crash? || (Undo(step, s).Next? && Shut(Undo(step, s).st))
  {
  }

  /** The compensations after a failed ConfirmTx or SucceedOrder either panic at once or shut the order. */
  lemma ParkAndUnwind(steps: seq<Step>, n: nat, s: State)
    requires 0 < n <= |steps| && (steps[n - 1].ConfirmTx? || steps[n - 1].SucceedOrder?)
    requires s.db.Some? && s.order != Some(Verifying)
    ensures
      var r := Unwind(steps, n, s);
      && Tally(r.st.calls, TxConfirm) == Tally(s.calls, TxConfirm)
      && (r.exit == Panicked || Shut(r.st))
  {
    ParkingShuts(steps[n - 1], s);
    UnwindOnlyRepairs(steps, n, s);
    SameTally(s.calls, Unwind(steps, n, s).st.calls, TxConfirm);
    var u := Undo(steps[n - 1], s);
    if u.Next? {
      UnwindStaysShut(steps, n - 1, u.st);
    }
  }

  lemma OneStep(steps: seq<Step>, a: Answers, i: nat, s: State)
    requires i < |steps|
    ensures
      var o := Exec(steps[i], a(i), s);
      Run(steps, a, i, s) ==
        if o.Next? then Run(steps, a, i + 1, o.st) else if o.Fail? then Unwind(steps, i + 1, o.st)
          else Result(Panicked, o.st)
  {
  }

  lemma SucceedTail(steps: seq<Step>, a: Answers, s: State)
    requires ConfirmsLast(steps) && s.db.Some?
    ensures
      var r := Run(steps, a, |steps| - 1, s);
      && Tally(r.st.calls, TxConfirm) == Tally(s.calls, TxConfirm)
      && (r.exit != Panicked ==> r.st.db.Some? && Final(r.st.db.value))
  {
    var i := |steps| - 1;
    var o := WriteOrder(s, Success, PutSuccess, a(i));
    assert Exec(steps[i], a(i), s) == o;
    OneStep(steps, a, i, s);
    WriteSucceeds(s, a(i));
    if o.Fail? { ParkAndUnwind(steps, i + 1, o.st); }
  }

  lemma WriteSucceeds(s: State, r: Reply)
    requires s.db.Some?
    ensures
      var o := WriteOrder(s, Success, PutSuccess, r);
      && Tally(o.st.calls, TxConfirm) == Tally(s.calls, TxConfirm) && o.st.db.Some?
      && (o.Next? ==> o.st.db == Some(Success)) && (o.Fail? ==> o.st.order != Some(Verifying))
  {
    WriteCommitsNothing(s, Success, PutSuccess, r);
    SameTally(s.calls, WriteOrder(s, Success, PutSuccess, r).st.calls, TxConfirm);
  }

  lemma ConfirmTail(steps: seq<Step>, a: Answers, s: State)
    requires ConfirmsLast(steps) && s.db.Some? && s.order != Some(Verifying)
    ensures ConfirmsOnce(s, Run(steps, a, |steps| - 2, s))
  {
    var i := |steps| - 2;
    OneStep(steps, a, i, s);
    match ConfirmTrans(s, a(i)) {
      case Crash(_) =>
      case Fail(s1) => ConfirmFailed(steps, i + 1, a(i), s);
      case Next(s1) => ConfirmPassed(steps, a, s);
    }
  }

  lemma ConfirmFailed(steps: seq<Step>, n: nat, r: Reply, s: State)
    requires 0 < n <= |steps| && steps[n - 1].ConfirmTx? && s.db.Some? && s.order != Some(Verifying)
    requires ConfirmTrans(s, r).Fail?
    ensures ConfirmsOnce(s, Unwind(steps, n, ConfirmTrans(s, r).st))
  {
    ConfirmCounts(s, r);
    var s1 := ConfirmTrans(s, r).st;
    ParkAndUnwind(steps, n, s1);
    CountedOnce(s, s1, Unwind(steps, n, s1));
  }

  lemma ConfirmPassed(steps: seq<Step>, a: Answers, s: State)
    requires ConfirmsLast(steps) && s.db.Some? && ConfirmTrans(s, a(|steps| - 2)).Next?
    ensures ConfirmsOnce(s, Run(steps, a, |steps| - 1, ConfirmTrans(s, a(|steps| - 2)).st))
  {
    ConfirmCounts(s, a(|steps| - 2));
    var s1 := ConfirmTrans(s, a(|steps| - 2)).st;
    SucceedTail(steps, a, s1);
    CountedOnce(s, s1, Run(steps, a, |steps| - 1, s1));
  }

  lemma CountedOnce(s: State, s1: State, r: Result)
    requires Tally(s1.calls, TxConfirm) == Tally(s.calls, TxConfirm) + 1
    requires Tally(r.st.calls, TxConfirm) == Tally(s1.calls, TxConfirm)
    requires r.exit != Panicked ==> r.st.db.Some? && Final(r.st.db.value)
    ensures ConfirmsOnce(s, r)
  {
  }

  lemma ConfirmCounts(s: State, r: Reply)
    requires !ConfirmTrans(s, r).Crash?
    ensures
      var s1 := ConfirmTrans(s, r).st;
      Tally(s1.calls, TxConfirm) == Tally(s.calls, TxConfirm) + 1 && s1.db == s.db && s1.order == s.order
  {
    assert ConfirmTrans(s, r).st.calls == s.calls + [TxConfirm];
    TallyAppend(s.calls, [TxConfirm], TxConfirm);
    TallyOfShort([TxConfirm], TxConfirm);
  }

  lemma ExecKeepsOpen(step: Step, r: Reply, s: State)
    requires !step.ConfirmTx? && !step.InitOrder? && s.db.Some? && s.order != Some(Verifying)
    ensures Exec(step, r, s).Next? ==> Exec(step, r, s).st.order != Some(Verifying)
  {
  }

  lemma EarlierStep(step: Step, r: Reply, s: State)
    requires !step.ConfirmTx? && !step.InitOrder? && s.db.Some? && s.order != Some(Verifying)
    ensures
      var o := Exec(step, r, s);
      && Tally(o.st.calls, TxConfirm) == Tally(s.calls, TxConfirm) && o.st.db.Some?
      && (o.Next? ==> o.st.order != Some(Verifying))
  {
    ExecCommits(step, r, s);
    ExecKeepsStored(step, r, s);
    ExecKeepsOpen(step, r, s);
    SameTally(s.calls, Exec(step, r, s).st.calls, TxConfirm);
  }

  lemma {:induction false} RunConfirmsOnce(steps: seq<Step>, a: Answers, i: nat, s: State)
    requires ConfirmsLast(steps) && i <= |steps| - 2 && s.db.Some? && s.order != Some(Verifying)
    ensures ConfirmsOnce(s, Run(steps, a, i, s))
    decreases |steps| - i
  {
    if i == |steps| - 2 {
      ConfirmTail(steps, a, s);
    } else {
      EarlierStep(steps[i], a(i), s);
      if Exec(steps[i], a(i), s).Next? { RunConfirmsOnce(steps, a, i + 1, Exec(steps[i], a(i), s).st); }
      OnceFromHere(steps, a, i, s);
    }
  }

  lemma OnceFromHere(steps: seq<Step>, a: Answers, i: nat, s: State)
    requires i < |steps| && Tally(Exec(steps[i], a(i), s).st.calls, TxConfirm) == Tally(s.calls, TxConfirm)
    requires var o := Exec(steps[i], a(i), s); o.Next? ==> ConfirmsOnce(o.st, Run(steps, a, i + 1, o.st))
    ensures ConfirmsOnce(s, Run(steps, a, i, s))
  {
    var o := Exec(steps[i], a(i), s);
    OneStep(steps, a, i, s);
    if o.Fail? { UnwindConfirmsNothing(steps, i + 1, o.st); }
    OnceSince(s, o.st, Run(steps, a, i, s));
  }

  lemma UnwindConfirmsNothing(steps: seq<Step>, n: nat, s: State)
    requires n <= |steps|
    ensures ConfirmsOnce(s, Unwind(steps, n, s))
  {
    UnwindOnlyRepairs(steps, n, s);
    SameTally(s.calls, Unwind(steps, n, s).st.calls, TxConfirm);
  }

  lemma OnceSince(s: State, s1: State, r: Result)
    requires Tally(s1.calls, TxConfirm) == Tally(s.calls, TxConfirm) && ConfirmsOnce(s1, r)
    ensures ConfirmsOnce(s, r)
  {
  }

  // ----- runs on one order, one after the other

  /** A closed gate turns every run away with nothing called and nothing changed. */
  lemma ClosedIsAbsorbing(e: Event, s: State)
    requires Idle(s) == s && Closed(s)
    ensures Handle(e, s) == Result(Errored, s)
  {
    match e {
      case VerifyOtp(a) => TurnedAway(Sagas.VerifyOtp(), a, s);
      case BuyCardWithOtp(v, a) => TurnedAway(Sagas.BuyCardWithOtp(v), a, s);
      case BankStatus(m, a) => TurnedAway(UpdateBankStatus(m), a, s);
      case _ =>
    }
  }

  lemma TurnedAway(steps: seq<Step>, a: Answers, s: State)
    requires steps != [] && steps[0].FindOrder? && (Closed(s) || a(0).Err?)
    ensures Run(steps, a, 0, s) == Result(Errored, s)
  {
    assert Undo(steps[0], s) == Next(s);
    assert Unwind(steps, 1, s) == Unwind(steps, 0, s);
  }

  /** A run attempts ConfirmTransaction at most once, and then leaves the order final unless it panicked. */
  lemma HandleConfirmsOnce(e: Event, s: State)
    requires Idle(s) == s
    ensures ConfirmsOnce(s, Handle(e, s))
  {
    if Closed(s) {
      ClosedIsAbsorbing(e, s);
    } else {
      var s1 := s.(order := s.db);
      match e {
        case VerifyOtp(a) => RunConfirmsOnce(Sagas.VerifyOtp(), a, 0, s);
        case BuyCardWithOtp(v, a) => RunConfirmsOnce(Sagas.BuyCardWithOtp(v), a, 0, s);
        case BankStatus(m, a) => RunConfirmsOnce(UpdateBankStatus(m), a, 0, s);
        case ConfirmOrder(v, w, _, a) => RunConfirmsOnce(Sagas.ConfirmOrder(v, w), a, 0, s1);
        case UpdateCredit(_, _, _, _, a) => CreditConfirmsOnce(e, s);
        case OrderCancel(_, _, _, _) => CancelConfirmsNothing(e, s);
        case OrderUpdate(_, _, _) =>
      }
    }
  }

  lemma CancelConfirmsNothing(e: Event, s: State)
    requires e.OrderCancel?
    ensures ConfirmsOnce(s, Handle(e, s))
  {
    if LetsIn(e.lookup, s) { SameTally(s.calls, Handle(e, s).st.calls, TxConfirm); }
  }

  lemma CreditConfirmsOnce(e: Event, s: State)
    requires Idle(s) == s && !Closed(s) && e.UpdateCredit?
    ensures ConfirmsOnce(s, Handle(e, s))
  {
    if s.tx.Some? {
      var s1 := s.(order := s.db, trans := s.tx);
      if e.status == CreditSuccess || (e.status == CreditVerifying && e.bank == Ok) {
        RunConfirmsOnce(Sagas.ConfirmCredit(), e.a, 0, s1);
      } else {
        CreditOnlyRepairs(e, s1);
        SameTally(s.calls, Credit(e, s1).st.calls, TxConfirm);
      }
    }
  }

  lemma CreditOnlyRepairs(e: Event, s: State)
    requires e.UpdateCredit? && s.order.Some? && s.trans.Some?
    requires e.status != CreditSuccess && !(e.status == CreditVerifying && e.bank == Ok)
    ensures OnlyRepairs(s, Credit(e, s).st)
  {
    RefuseOnlyRepairs(s);
  }

  function After(events: seq<Event>, s: State): State {
    if events == [] then s else After(events[1..], Idle(Handle(events[0], s).st))
  }

  function Confirms(events: seq<Event>, s: State): nat {
    if events == [] then 0
    else Tally(Handle(events[0], s).st.calls, TxConfirm) + Confirms(events[1..], Idle(Handle(events[0], s).st))
  }

  /** Every call of a sequence of runs, in order. */
  function CallsOver(events: seq<Event>, s: State): seq<Call> {
    if events == [] then []
    else Handle(events[0], s).st.calls + CallsOver(events[1..], Idle(Handle(events[0], s).st))
  }

  lemma {:induction false} NothingAfterClosing(events: seq<Event>, s: State)
    requires Idle(s) == s && Closed(s)
    ensures After(events, s) == s && Confirms(events, s) == 0 && CallsOver(events, s) == []
  {
    if events != [] {
      ClosedIsAbsorbing(events[0], s);
      NothingAfterClosing(events[1..], s);
    }
  }
}
