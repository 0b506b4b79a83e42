/** UpdateBankStatus under at-least-once delivery. */
module Redelivery {
  import opened Statuses
  import opened Steps
  import opened Settlement
  import opened Gated
  import opened BankStatus
  import opened Reaching
  import Products

  /**
   The deliveries that leave an open order open: the order could not be read, or ConfirmTransaction or the last
   order write failed without a record (and without having taken effect).
   */
  predicate LeavesOpen(m: BankMessage, a: Answers, s: State) {
    var k := FirstStop(UpdateBankStatus(m), a, 0, s);
    a(0).Err? || (8 <= k < 10 && a(k).Err? && !a(k).record && !(k == 9 && a(k).applied))
  }

  lemma DeliveryCloses(m: BankMessage, a: Answers, s: State)
    requires Idle(s) == s
    ensures Closed(Handle(BankStatus(m, a), s).st) <==> Closed(s) || !LeavesOpen(m, a, s)
  {
    if Closed(s) {
      ClosedIsAbsorbing(BankStatus(m, a), s);
    } else {
      DeliveryKeepsExpiry(m, a, s);
      BankHalt(m, a, s);
      OpenDeliveryCloses(m, a, s);
    }
  }

  lemma OpenDeliveryCloses(m: BankMessage, a: Answers, s: State)
    requires Idle(s) == s && !Closed(s) && Halt(UpdateBankStatus(m), a, 0, s) == FirstStop(UpdateBankStatus(m), a, 0, s)
    requires Handle(BankStatus(m, a), s).st.expired == s.expired
    ensures Closed(Handle(BankStatus(m, a), s).st) <==> !LeavesOpen(m, a, s)
  {
    DeliveryOutcome(m, a, s);
  }

  /** The step at which a delivery halts, read off its answers. */
  lemma BankHalt(m: BankMessage, a: Answers, s: State)
    requires Idle(s) == s && !Closed(s)
    ensures Guarded(UpdateBankStatus(m)) && Live(UpdateBankStatus(m), 0, s, s)
    ensures Halt(UpdateBankStatus(m), a, 0, s) == FirstStop(UpdateBankStatus(m), a, 0, s)
  {
    assert UpdateBankStatus(m)[1].FindTx?;
    HaltIsFirstStop(UpdateBankStatus(m), a, 0, s, s);
  }

  lemma ExecKeepsExpiry(step: Step, r: Reply, s: State)
    ensures Exec(step, r, s).st.expired == s.expired
  {
  }

  lemma {:induction false} UnwindKeepsExpiry(steps: seq<Step>, n: nat, s: State)
    requires n <= |steps|
    ensures Unwind(steps, n, s).st.expired == s.expired
  {
    if n > 0 {
      UndoFrame(steps[n - 1], s);
      if Undo(steps[n - 1], s).Next? { UnwindKeepsExpiry(steps, n - 1, Undo(steps[n - 1], s).st); }
    }
  }

  lemma {:induction false} RunKeepsExpiry(steps: seq<Step>, a: Answers, i: nat, s: State)
    requires i <= |steps|
    ensures Run(steps, a, i, s).st.expired == s.expired
    decreases |steps| - i
  {
    if i < |steps| {
      var o := Exec(steps[i], a(i), s);
      ExecKeepsExpiry(steps[i], a(i), s);
      if o.Next? { RunKeepsExpiry(steps, a, i + 1, o.st); }
      if o.Fail? { UnwindKeepsExpiry(steps, i + 1, o.st); }
    }
  }

  lemma DeliveryKeepsExpiry(m: BankMessage, a: Answers, s: State)
    ensures Handle(BankStatus(m, a), s).st.expired == s.expired
  {
    RunKeepsExpiry(UpdateBankStatus(m), a, 0, s);
  }

  /** The same message once more for every element of `later`, with whatever answers. */
  function Deliveries(m: BankMessage, later: seq<Answers>): seq<Event> {
    seq(|later|, i requires 0 <= i < |later| => BankStatus(m, later[i]))
  }

  /**
   Delivering a message any number of times leaves the same order, transaction, voucher ledger and log of calls as
   delivering it once, whatever the later deliveries would be answered, exactly if the order was closed before or the
   first delivery did not leave it open.
   */
  lemma Idempotent(m: BankMessage, a: Answers, s: State)
    requires Idle(s) == s
    ensures
      var first := [BankStatus(m, a)];
      (forall later: seq<Answers> ::
         After(first + Deliveries(m, later), s) == After(first, s)
           && CallsOver(first + Deliveries(m, later), s) == CallsOver(first, s))
      <==> Closed(s) || !LeavesOpen(m, a, s)
  {
    DeliveryCloses(m, a, s);
    var e := BankStatus(m, a);
    var s1 := Idle(Handle(e, s).st);
    AfterFirst(e, [], s);
    assert [e] + [] == [e];
    if Closed(s1) {
      forall later: seq<Answers>
        ensures After([e] + Deliveries(m, later), s) == After([e], s)
        ensures CallsOver([e] + Deliveries(m, later), s) == CallsOver([e], s)
      {
        AfterFirst(e, Deliveries(m, later), s);
        NothingAfterClosing(Deliveries(m, later), s1);
      }
    } else {
      var good: Answers := (i: nat) => Ok;
      AfterFirst(e, Deliveries(m, [good]), s);
      AfterFirst(BankStatus(m, good), [], s1);
      assert Deliveries(m, [good]) == [BankStatus(m, good)] + [];
      DeliveryCloses(m, good, s1);
      assert After([e] + Deliveries(m, [good]), s) != After([e], s);
    }
  }

  lemma AfterFirst(e: Event, rest: seq<Event>, s: State)
    ensures After([e] + rest, s) == After(rest, Idle(Handle(e, s).st))
    ensures CallsOver([e] + rest, s) == Handle(e, s).st.calls + CallsOver(rest, Idle(Handle(e, s).st))
  {
    assert ([e] + rest)[1..] == rest;
  }

  // ----- at most one provider

  /** Whatever the sub order type and the answers, a delivery calls at most one provider, at most once. */
  lemma OneProvider(m: BankMessage, a: Answers, s: State)
    requires Idle(s) == s
    ensures Tally(Handle(BankStatus(m, a), s).st.calls, Delivery) <= 1
    ensures !IsCard(m.sub) && !IsTopUp(m.sub) && !IsBill(m.sub) ==>
      Tally(Handle(BankStatus(m, a), s).st.calls, Delivery) == 0
  {
    RunTally(UpdateBankStatus(m), a, 0, s, Delivery);
    Externals(m);
    assert Tally(s.calls, Delivery) == 0;
  }

  /** Deliveries that get as far as the confirmation and leave the order open: the message will be worked off again. */
  predicate Repeats(m: BankMessage, a: Answers, s: State) { !Closed(s) && !a(0).Err? && LeavesOpen(m, a, s) }

  function RepeatsIn(m: BankMessage, ds: seq<Answers>, s: State): nat {
    if ds == [] then 0
    else (if Repeats(m, ds[0], s) then 1 else 0) + RepeatsIn(m, ds[1..], Idle(Handle(BankStatus(m, ds[0]), s).st))
  }

  /**
   Over any number of deliveries of a message, the provider is called at most once, plus once per repeating delivery.
   */
  lemma {:induction false} ProviderOverDeliveries(m: BankMessage, ds: seq<Answers>, s: State)
    requires Idle(s) == s
    ensures Tally(CallsOver(Deliveries(m, ds), s), Delivery) <= 1 + RepeatsIn(m, ds, s)
  {
    if ds == [] {
      TallyOfShort([], Delivery);
    } else {
      var e := BankStatus(m, ds[0]);
      var s1, rest := Idle(Handle(e, s).st), Deliveries(m, ds[1..]);
      assert Deliveries(m, ds) == [e] + rest;
      AfterFirst(e, rest, s);
      TallyAppend(Handle(e, s).st.calls, CallsOver(rest, s1), Delivery);
      OneProvider(m, ds[0], s);
      DeliveryCloses(m, ds[0], s);
      if Closed(s1) {
        NothingAfterClosing(rest, s1);
        TallyOfShort([], Delivery);
      } else {
        ProviderOverDeliveries(m, ds[1..], s1);
        if ds[0](0).Err? { TurnedAway(UpdateBankStatus(m), ds[0], s); }
      }
    }
  }

  /** A delivery of a product that nothing stops before the confirmation calls its provider exactly once. */
  lemma ProviderCalled(m: BankMessage, a: Answers, s: State)
    requires Idle(s) == s && !Closed(s) && ProductStep(m.sub) < 10 && FirstStop(UpdateBankStatus(m), a, 0, s) >= 8
    ensures Tally(Handle(BankStatus(m, a), s).st.calls, Delivery) == 1
  {
    ProviderPassed(m, a, s);
    OneProvider(m, a, s);
    var calls := Handle(BankStatus(m, a), s).st.calls;
    assert calls[..|calls|] == calls;
    TallyPositive(calls, |calls|, Delivery);
  }

  lemma ProviderPassed(m: BankMessage, a: Answers, s: State)
    requires Idle(s) == s && !Closed(s) && ProductStep(m.sub) < 10 && FirstStop(UpdateBankStatus(m), a, 0, s) >= 8
    ensures Delivery in Handle(BankStatus(m, a), s).st.calls
  {
    BankHalt(m, a, s);
    ProductApplies(m);
    PassedBeforeEnd(UpdateBankStatus(m), a, ProductStep(m.sub), s);
  }

  lemma ProductApplies(m: BankMessage)
    requires ProductStep(m.sub) < 10
    ensures ProductStep(m.sub) < 8 && Asks(UpdateBankStatus(m)[ProductStep(m.sub)])
  {
  }

  lemma PassedBeforeEnd(steps: seq<Step>, a: Answers, p: nat, s: State)
    requires Guarded(steps) && Live(steps, 0, s, s) && p < |steps| - 2 <= FirstStop(steps, a, 0, s)
    requires Asks(steps[p])
    ensures Delivery in Run(steps, a, 0, s).st.calls
  {
    FrontOfStop(steps, a, 0, s);
    PassedExternal(steps, a, p, s, s);
  }

  /** What a bank message's sub order type stands for. */
  lemma Dispatch(m: BankMessage, a: Answers, s: State)
    requires Idle(s) == s && !Closed(s)
    ensures
      var st := Handle(BankStatus(m, a), s).st;
      var product :=
        if m.sub == "BUYDATA" || m.sub == "BUYCARD" then [CardSale]
        else if m.sub == "TOPUPCARD" then [Airtime]
        else if
          || m.sub == "PAYBILLWATER" || m.sub == "PAYBILLELECTRIC" || m.sub == "PAYBILLLOAN"
          || m.sub == "PAYBILLINTERNET" || m.sub == "PAYBILLTELEPHONE" || m.sub == "PAYBILLTV"
        then [BillPayment]
        else [];
      && |st.products| == Tally(st.calls, Delivery)
      && (st.products == [] || st.products == product)
      && (FirstStop(UpdateBankStatus(m), a, 0, s) >= 8 ==> st.products == product)
  {
    var steps := UpdateBankStatus(m);
    var st := Handle(BankStatus(m, a), s).st;
    Products.RunAsks(steps, a, 0, s);
    TallyOfShort([], Delivery);
    OneProvider(m, a, s);
    BankOffers(m);
    if st.products != [] { assert st.products[0] in Products.Offered(steps); }
    if ProductStep(m.sub) < 10 && FirstStop(steps, a, 0, s) >= 8 { ProviderCalled(m, a, s); }
  }

  lemma BankOffers(m: BankMessage)
    ensures
      Products.Offered(UpdateBankStatus(m)) ==
        if ProductStep(m.sub) == 4 then {CardSale}
        else if ProductStep(m.sub) == 6 then {Airtime}
        else if ProductStep(m.sub) == 7 then {BillPayment}
        else {}
  {
    StepsOffer(m.code == "200", m.voucher, IsCard(m.sub), IsTopUp(m.sub), IsBill(m.sub));
  }

  lemma StepsOffer(accepted: bool, v: bool, card: bool, topUp: bool, bill: bool)
    ensures
      Products.Offered(BankSteps(accepted, v, card, topUp, bill)) ==
        (if card then {CardSale} else {}) + (if topUp then {Airtime} else {}) + (if bill then {BillPayment} else {})
  {
    var steps := BankSteps(accepted, v, card, topUp, bill);
    assert steps[4] in steps && steps[6] in steps && steps[7] in steps;
  }

  /** What a repeating delivery leaves: a retry answered Ok gets through to the end. */
  lemma RepeatRetries(m: BankMessage, a: Answers, good: Answers, s: State)
    requires Idle(s) == s && Repeats(m, a, s) && forall i: nat :: good(i) == Ok
    ensures FirstStop(UpdateBankStatus(m), good, 0, Idle(Handle(BankStatus(m, a), s).st)) == 10
  {
    var steps := UpdateBankStatus(m);
    DeliveryCloses(m, a, s);
    DeliveryOutcome(m, a, s);
    BankHalt(m, a, s);
    PassedBefore(steps, a, 0, s);
    assert !Stops(steps[1], a(1), s) && !Stops(steps[2], a(2), s);
    PassedBefore(steps, good, 0, Idle(Handle(BankStatus(m, a), s).st));
  }

  /** A repeating delivery of a product, then one that is answered Ok: the provider is called twice. */
  lemma SecondDelivery(m: BankMessage, a: Answers, s: State)
    requires Idle(s) == s && ProductStep(m.sub) < 10 && Repeats(m, a, s)
    ensures
      var good: Answers := (i: nat) => Ok;
      Tally(CallsOver([BankStatus(m, a)] + ([BankStatus(m, good)] + []), s), Delivery) == 2
  {
    var good: Answers := (i: nat) => Ok;
    var s1 := Idle(Handle(BankStatus(m, a), s).st);
    ProviderCalled(m, a, s);
    DeliveryCloses(m, a, s);
    RepeatRetries(m, a, good, s);
    ProviderCalled(m, good, s1);
    AfterFirst(BankStatus(m, a), [BankStatus(m, good)] + [], s);
    AfterFirst(BankStatus(m, good), [], s1);
    TallyAppend(Handle(BankStatus(m, a), s).st.calls, CallsOver([BankStatus(m, good)] + [], s1), Delivery);
    assert CallsOver([BankStatus(m, good)] + [], s1) == Handle(BankStatus(m, good), s1).st.calls;
  }

  /** A delivery that called the provider and does not repeat closes the order. */
  lemma DeliveredCloses(m: BankMessage, a: Answers, s: State)
    requires Idle(s) == s && Tally(Handle(BankStatus(m, a), s).st.calls, Delivery) > 0 && !Repeats(m, a, s)
    ensures Closed(Handle(BankStatus(m, a), s).st)
  {
    TallyOfShort([], Delivery);
    if Closed(s) {
      ClosedIsAbsorbing(BankStatus(m, a), s);
    } else if a(0).Err? {
      TurnedAway(UpdateBankStatus(m), a, s);
    } else {
      DeliveryCloses(m, a, s);
    }
  }

  /**
   After a provider call, no later delivery of the message makes another, whatever its answers, exactly if this one
   does not repeat.
   */
  lemma OneCardExactly(m: BankMessage, a: Answers, s: State)
    requires Idle(s) == s && Tally(Handle(BankStatus(m, a), s).st.calls, Delivery) > 0
    ensures
      (forall later: seq<Answers> :: Tally(CallsOver([BankStatus(m, a)] + Deliveries(m, later), s), Delivery) == 1)
      <==> !Repeats(m, a, s)
  {
    OneProvider(m, a, s);
    if Repeats(m, a, s) {
      var good: Answers := (i: nat) => Ok;
      assert Deliveries(m, [good]) == [BankStatus(m, good)] + [];
      SecondDelivery(m, a, s);
      assert Tally(CallsOver([BankStatus(m, a)] + Deliveries(m, [good]), s), Delivery) == 2;
    } else {
      DeliveredCloses(m, a, s);
      forall later: seq<Answers> ensures Tally(CallsOver([BankStatus(m, a)] + Deliveries(m, later), s), Delivery) == 1 {
        NoMoreCalls(BankStatus(m, a), Deliveries(m, later), s);
      }
    }
  }

  lemma NoMoreCalls(e: Event, more: seq<Event>, s: State)
    requires Idle(s) == s && Closed(Handle(e, s).st)
    ensures CallsOver([e] + more, s) == Handle(e, s).st.calls
  {
    AfterFirst(e, more, s);
    NothingAfterClosing(more, Idle(Handle(e, s).st));
  }

  lemma Externals(m: BankMessage)
    ensures CommitsFrom(UpdateBankStatus(m), 0, Delivery) ==
      (if IsCard(m.sub) then 1 else 0) + (if IsTopUp(m.sub) then 1 else 0) + (if IsBill(m.sub) then 1 else 0)
  {
    var steps := UpdateBankStatus(m);
    assert CommitsFrom(steps, 8, Delivery) == CommitsFrom(steps, 9, Delivery) == 0;
    assert CommitsFrom(steps, 6, Delivery) == (if IsTopUp(m.sub) then 1 else 0) + (if IsBill(m.sub) then 1 else 0);
    assert CommitsFrom(steps, 4, Delivery) == (if IsCard(m.sub) then 1 else 0) + CommitsFrom(steps, 6, Delivery);
    assert CommitsFrom(steps, 2, Delivery) == CommitsFrom(steps, 3, Delivery) == CommitsFrom(steps, 4, Delivery);
    assert CommitsFrom(steps, 0, Delivery) == CommitsFrom(steps, 1, Delivery) == CommitsFrom(steps, 2, Delivery);
  }

  // ----- a pending provider

  lemma ExecTraces(step: Step, r: Reply, s: State)
    requires Exec(step, r, s).Next? && !step.EnterOtp?
    ensures Exec(step, r, s).st.calls == s.calls + CallOf(step)
  {
  }

  /** Step i is reached, and exactly the calls of the forward functions before it were made. */
  predicate Traced(m: BankMessage, i: nat, s0: State, s: State)
    requires i <= 10
  {
    Reached(i, s0, s) && s.calls == Trace(UpdateBankStatus(m), i)
  }

  lemma TracedStep(m: BankMessage, i: nat, r: Reply, s0: State, s: State)
    requires i < 9 && Idle(s0) == s0 && !Closed(s0) && Traced(m, i, s0, s) && Exec(UpdateBankStatus(m)[i], r, s).Next?
    ensures Traced(m, i + 1, s0, Exec(UpdateBankStatus(m)[i], r, s).st)
  {
    DeliveryStep(m, i, r, s0, s);
    ExecTraces(UpdateBankStatus(m)[i], r, s);
  }

  lemma {:induction false} HaltedState(m: BankMessage, a: Answers, i: nat, s0: State, s: State) returns (sk: State)
    requires i < 10 && Idle(s0) == s0 && !Closed(s0) && Traced(m, i, s0, s)
    requires Halt(UpdateBankStatus(m), a, i, s) < 10
    ensures
      var k := Halt(UpdateBankStatus(m), a, i, s);
      Traced(m, k, s0, sk) && Run(UpdateBankStatus(m), a, i, s) == Run(UpdateBankStatus(m), a, k, sk)
    decreases 10 - i
  {
    var steps := UpdateBankStatus(m);
    sk := s;
    if Exec(steps[i], a(i), s).Next? {
      var s1 := Exec(steps[i], a(i), s).st;
      OneStep(steps, a, i, s);
      assert Halt(steps, a, i, s) == Halt(steps, a, i + 1, s1);
      if i < 9 {
        TracedStep(m, i, a(i), s0, s);
        sk := HaltedState(m, a, i + 1, s0, s1);
      }
    }
  }

  /** Position of the product step that applies; 10 if none does. */
  function ProductStep(sub: string): nat {
    if IsCard(sub) then 4 else if IsTopUp(sub) then 6 else if IsBill(sub) then 7 else 10
  }

  /** Steps other than the voucher's and the applicable product's call nothing, going forward or back. */
  lemma {:induction false} QuietSteps(steps: seq<Step>, i: nat, n: nat)
    requires i <= n <= |steps|
    requires forall j | i <= j < n :: Quiet(steps[j])
    ensures Trace(steps, n) == Trace(steps, i) && Rollback(steps, n, true) == Rollback(steps, i, true)
  {
    if i < n { QuietSteps(steps, i, n - 1); }
  }

  /** p is the first product step that applies. */
  predicate FirstProduct(card: bool, topUp: bool, bill: bool, p: nat) {
    (p == 4 && card) || (p == 6 && !card && topUp) || (p == 7 && !card && !topUp && bill)
  }

  lemma CallsUpToProduct(accepted: bool, voucher: bool, card: bool, topUp: bool, bill: bool, p: nat)
    requires FirstProduct(card, topUp, bill, p)
    ensures Trace(BankSteps(accepted, voucher, card, topUp, bill), p) == if voucher then [VoucherUse] else []
    ensures Rollback(BankSteps(accepted, voucher, card, topUp, bill), p, true) == [VoucherReverse]
  {
    var steps := BankSteps(accepted, voucher, card, topUp, bill);
    forall j | 0 <= j < p && j != 3 ensures Quiet(steps[j]) {
      assert steps[j].FindOrder? || steps[j].FindTx? || steps[j].RejectBankFailure? || steps[j].CardFee?
        || (steps[j].External? && !steps[j].applies);
    }
    OnlyVoucherCalls(steps, voucher, p);
  }

  /** Calls nothing, going forward or, on a pending payment, back. */
  predicate Quiet(step: Step) { CallOf(step) == [] && RollbackOne(step, true) == [] }

  lemma OnlyVoucherCalls(steps: seq<Step>, voucher: bool, p: nat)
    requires 4 <= p <= |steps| && steps[3] == UseVoucher(voucher, false)
    requires forall j | 0 <= j < p && j != 3 :: Quiet(steps[j])
    ensures Trace(steps, p) == if voucher then [VoucherUse] else []
    ensures Rollback(steps, p, true) == [VoucherReverse]
  {
    QuietSteps(steps, 0, 3);
    VoucherCalls(steps, voucher);
    QuietSteps(steps, 4, p);
  }

  lemma VoucherCalls(steps: seq<Step>, given: bool)
    requires |steps| > 3 && steps[3] == UseVoucher(given, false) && Trace(steps, 3) == []
    requires Rollback(steps, 3, true) == []
    ensures Trace(steps, 4) == if given then [VoucherUse] else []
    ensures Rollback(steps, 4, true) == [VoucherReverse]
  {
  }

  /**
   The applicable provider answers pending: the run ends (VERIFYING, PENDING) with no voucher held, and the calls,
   listed in full, contain neither Cancel nor Confirm.
   */
  lemma PendingProvider(m: BankMessage, a: Answers, s: State)
    requires Idle(s) == s && !Closed(s)
    requires var p := ProductStep(m.sub); p < 10 && FirstStop(UpdateBankStatus(m), a, 0, s) == p && a(p) == Later
    ensures ParkedByProvider(m.voucher, s, Handle(BankStatus(m, a), s))
  {
    BankHalt(m, a, s);
    var sk := HaltedRun(m, a, s);
    var p := ProductStep(m.sub);
    CallsUpToProduct(m.code == "200", m.voucher, IsCard(m.sub), IsTopUp(m.sub), IsBill(m.sub), p);
    ProductFacts(m.code == "200", m.voucher, IsCard(m.sub), IsTopUp(m.sub), IsBill(m.sub), p);
    PendingFrom(UpdateBankStatus(m), a, p, m.voucher, s, sk);
  }

  lemma HaltedRun(m: BankMessage, a: Answers, s: State) returns (sk: State)
    requires Idle(s) == s && !Closed(s) && 2 <= Halt(UpdateBankStatus(m), a, 0, s) < 8
    ensures
      var k := Halt(UpdateBankStatus(m), a, 0, s);
      Handle(BankStatus(m, a), s) == Run(UpdateBankStatus(m), a, k, sk) && sk.calls == Trace(UpdateBankStatus(m), k)
    ensures sk.order == sk.db == s.db && sk.db.Some? && !Final(sk.db.value) && sk.trans == sk.tx == s.tx
    ensures sk.tx.Some? && !sk.rejected
  {
    sk := HaltedState(m, a, 0, s, s);
  }

  /** Both records are parked, and these are all the calls made since s. */
  predicate ParkedByProvider(voucher: bool, s: State, r: Result) {
    && r.exit == Errored && r.st.db == Some(Verifying) && r.st.tx == Some(TxPending) && !r.st.voucher
    && r.st.calls ==
       (if voucher then [VoucherUse] else []) + [Delivery] +
       (if s.tx == Some(TxPending) then [] else [TxUpdate]) + [PutVerifying, VoucherReverse]
  }

  lemma PendingFrom(steps: seq<Step>, a: Answers, p: nat, voucher: bool, s: State, sk: State)
    requires p < |steps| && Asks(steps[p]) && VoucherBelow(steps, p) && a(p) == Later
    requires forall j | 0 <= j < p :: !steps[j].ConfirmTx? && !steps[j].SucceedOrder? && !steps[j].EnterOtp?
    requires sk.order.Some? && sk.order == sk.db && !Final(sk.order.value) && sk.trans.Some?
    requires sk.trans == sk.tx == s.tx && !sk.rejected
    requires sk.calls == (if voucher then [VoucherUse] else []) && Rollback(steps, p, true) == [VoucherReverse]
    ensures ParkedByProvider(voucher, s, Run(steps, a, p, sk))
  {
    PendingUnwind(steps, p, sk);
    OneStep(steps, a, p, sk);
  }

  lemma ProductFacts(accepted: bool, voucher: bool, card: bool, topUp: bool, bill: bool, p: nat)
    requires FirstProduct(card, topUp, bill, p)
    ensures
      var steps := BankSteps(accepted, voucher, card, topUp, bill);
      && Asks(steps[p]) && VoucherBelow(steps, p)
      && forall j | 0 <= j < p :: !steps[j].ConfirmTx? && !steps[j].SucceedOrder? && !steps[j].EnterOtp?
  {
    VoucherUnder(BankSteps(accepted, voucher, card, topUp, bill), p);
  }

  // ----- a rejected bank payment

  /**
   A message whose code is not "200", on an order that passes the gate: the order ends FAILED, nothing is confirmed,
   delivered or redeemed, and Cancel is sent exactly if the transaction is found. Unless that Cancel fails, SUCCESS
   is written on the way and overwritten by FIND_TRANS's compensation, which also cancels again unless the
   transaction had been PENDING or FAILED.
   */
  lemma RejectedPayment(m: BankMessage, a: Answers, s: State)
    requires Idle(s) == s && !Closed(s) && m.code != "200" && !a(0).Err?
    ensures Rejected(!a(1).Err? && s.tx.Some?, a(2), s, Handle(BankStatus(m, a), s))
  {
    var steps := UpdateBankStatus(m);
    PassesGate(steps, a, s);
    var s1 := s.(order := s.db);
    if a(1).Err? || s.tx.None? {
      assert Exec(steps[1], a(1), s1) == Fail(s1);
      FindTxUndo(steps, s1);
    } else {
      RejectsAtBank(steps, a, s);
    }
  }

}
