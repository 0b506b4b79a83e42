/** Provider and bank calls over any sequence of gated runs: when the same order is delivered twice. */
module Providers {
  import opened Statuses
  import opened Steps
  import opened Gated
  import opened BankStatus
  import opened Reaching
  import opened Reopening
  import Sagas
  import Redelivery
  import Products

  predicate Applies(steps: seq<Step>) { exists i | 0 <= i < |steps| :: Asks(steps[i]) }

  /** Only external and fee steps lie between an external step and the confirmation. */
  predicate Delivers(steps: seq<Step>) {
    && Guarded(steps)
    && forall i, j | 0 <= i <= j < |steps| - 2 && steps[i].External? :: steps[j].External? || steps[j].CardFee?
  }

  lemma StepsDeliver(e: Event)
    requires !e.OrderCancel? && !e.OrderUpdate?
    ensures Delivers(StepsOfEvent(e))
  {
    if e.BankStatus? {
      var m := e.m;
      BankStepsDeliver(m.code == "200", m.voucher, IsCard(m.sub), IsTopUp(m.sub), IsBill(m.sub));
    }
  }

  lemma BankStepsDeliver(accepted: bool, v: bool, card: bool, topUp: bool, bill: bool)
    ensures Delivers(BankSteps(accepted, v, card, topUp, bill))
  {
  }

  // ----- a run that stops after its external step closes the order

  lemma UndoExternalShuts(step: Step, s: State)
    requires step.External? && NonNil(s) && Synced(s)
    ensures Undo(step, s).Next? && Shut(Undo(step, s).st)
  {
  }

  /** Compensations from n - 1 down come to the external step at p and shut the order there. */
  lemma {:induction false} UnwindShutsAt(steps: seq<Step>, p: nat, n: nat, s: State)
    requires p < n <= |steps| && steps[p].External? && NonNil(s) && Synced(s)
    ensures Shut(Unwind(steps, n, s).st)
  {
    UndoNeverNil(steps[n - 1], s);
    UndoKeepsSync(steps[n - 1], s);
    var s1 := Undo(steps[n - 1], s).st;
    if p == n - 1 {
      UndoExternalShuts(steps[p], s);
      UnwindStaysShut(steps, p, s1);
    } else {
      UnwindShutsAt(steps, p, n - 1, s1);
    }
  }

  lemma LateStepFails(step: Step, r: Reply, s: State)
    requires (step.External? || step.CardFee?) && NonNil(s) && s.db.Some? && !Final(s.order.value)
    requires !Exec(step, r, s).Next?
    ensures Exec(step, r, s).Fail? && NonNil(Exec(step, r, s).st) && Synced(Exec(step, r, s).st)
  {
  }

  lemma StopsAfterDelivery(steps: seq<Step>, a: Answers, p: nat, k: nat, s0: State, s: State)
    requires Delivers(steps) && p <= k < |steps| - 2 && steps[p].External?
    requires Live(steps, k, s0, s) && Stops(steps[k], a(k), s0)
    ensures Closed(Run(steps, a, k, s).st)
  {
    assert !Supplies(steps, k);
    LiveStep(steps, k, a(k), s0, s);
    LateStepFails(steps[k], a(k), s);
    OneStep(steps, a, k, s);
    UnwindShutsAt(steps, p, k + 1, Exec(steps[k], a(k), s).st);
  }

  /** A run that stops before it comes to an external step has called nobody. */
  lemma StopsBeforeDelivery(steps: seq<Step>, a: Answers, k: nat, s: State)
    requires k < |steps| && !steps[k].External? && !Exec(steps[k], a(k), s).Next?
    ensures Tally(Run(steps, a, k, s).st.calls, Delivery) <= Tally(s.calls, Delivery)
  {
    ExecTally(steps[k], a(k), s, Delivery);
    OneStep(steps, a, k, s);
    var o := Exec(steps[k], a(k), s);
    if o.Fail? {
      UnwindOnlyRepairs(steps, k + 1, o.st);
      SameTally(o.st.calls, Unwind(steps, k + 1, o.st).st.calls, Delivery);
    }
  }

  /** r has called a provider or bank since s and left the order open. */
  predicate DeliveredOpen(s: State, r: Result) {
    Tally(r.st.calls, Delivery) > Tally(s.calls, Delivery) && !Closed(r.st)
  }

  lemma StopsEarlyDelivers(steps: seq<Step>, a: Answers, s0: State, s: State)
    requires Delivers(steps) && Live(steps, 0, s0, s) && Front(steps, a, 0, s0) < |steps| - 2
    ensures !DeliveredOpen(s, Run(steps, a, 0, s))
  {
    var k := Front(steps, a, 0, s0);
    var sk := RunsToFront(steps, a, 0, s.voucher, s0, s);
    FrontOfStop(steps, a, 0, s0);
    if p :| 0 <= p <= k && steps[p].External? {
      StopsAfterDelivery(steps, a, p, k, s0, sk);
    } else {
      LiveStep(steps, k, a(k), s0, sk);
      StopsBeforeDelivery(steps, a, k, sk);
    }
  }

  lemma {:induction false} NoExternalNoCommit(steps: seq<Step>, i: nat)
    requires i <= |steps| && !Applies(steps)
    ensures CommitsFrom(steps, i, Delivery) == 0
    decreases |steps| - i
  {
    if i < |steps| { NoExternalNoCommit(steps, i + 1); }
  }

  /** A run that gets to the confirmation has delivered exactly if an external step applies. */
  lemma ReachesConfirmDelivers(steps: seq<Step>, a: Answers, s0: State, s: State)
    requires Delivers(steps) && Live(steps, 0, s0, s) && Front(steps, a, 0, s0) == |steps| - 2 && s.calls == []
    ensures Tally(Run(steps, a, 0, s).st.calls, Delivery) > 0 <==> Applies(steps)
  {
    var calls := Run(steps, a, 0, s).st.calls;
    if Applies(steps) {
      var p :| 0 <= p < |steps| && Asks(steps[p]);
      PassedExternal(steps, a, p, s0, s);
      assert calls[..|calls|] == calls;
      TallyPositive(calls, |calls|, Delivery);
    } else {
      RunTally(steps, a, 0, s, Delivery);
      NoExternalNoCommit(steps, 0);
    }
  }

  // ----- one run

  /** Exactly the reopening runs with an applicable external step deliver and leave the order open. */
  lemma DeliversOpenExactly(e: Event, s: State)
    requires Idle(s) == s
    ensures
      Tally(Handle(e, s).st.calls, Delivery) > 0 && !Closed(Idle(Handle(e, s).st))
      <==> Reopens(e, s) && Applies(StepsOfEvent(e))
  {
    if Closed(s) {
      ClosedIsAbsorbing(e, s);
    } else if !Admits(e, s) {
      UnadmittedDelivers(e, s);
    } else {
      AdmittedDelivers(e, s);
    }
  }

  lemma AdmittedDelivers(e: Event, s: State)
    requires Idle(s) == s && Admits(e, s)
    ensures DeliveredOpen(s, Handle(e, s)) <==> Reopens(e, s) && Applies(StepsOfEvent(e))
  {
    var steps, s1 := StepsOfEvent(e), Entry(e, s);
    StepsGuarded(e);
    StepsDeliver(e);
    EntryLive(e, s);
    FrontOfStop(steps, e.a, 0, s);
    RunReopens(steps, e.a, s, s1);
    RunConfirms(steps, e.a, s, s1);
    if Front(steps, e.a, 0, s) < |steps| - 2 {
      StopsEarlyDelivers(steps, e.a, s, s1);
    } else {
      ReachesConfirmDelivers(steps, e.a, s, s1);
    }
  }

  lemma UnadmittedDelivers(e: Event, s: State)
    requires Idle(s) == s && !Admits(e, s) && !Closed(s)
    ensures Tally(Handle(e, s).st.calls, Delivery) == 0
  {
    if e.UpdateCredit? && LetsIn(e.lookup, s) && !e.find.Err? && s.tx.Some? {
      var s1 := s.(order := s.db, trans := s.tx);
      CreditOnlyRepairs(e, s1);
      SameTally(s.calls, Credit(e, s1).st.calls, Delivery);
    } else if e.OrderCancel? && LetsIn(e.lookup, s) {
      SameTally(s.calls, Handle(e, s).st.calls, Delivery);
    }
  }

  lemma AtMostOneDelivery(e: Event, s: State)
    requires Idle(s) == s
    ensures Tally(Handle(e, s).st.calls, Delivery) <= 1
  {
    if Closed(s) {
      ClosedIsAbsorbing(e, s);
    } else if !Admits(e, s) {
      UnadmittedDelivers(e, s);
    } else if e.BankStatus? {
      Redelivery.OneProvider(e.m, e.a, s);
    } else {
      EntryLive(e, s);
      RunTally(StepsOfEvent(e), e.a, 0, Entry(e, s), Delivery);
      OneExternal(e);
    }
  }

  lemma OneExternal(e: Event)
    requires !e.OrderCancel? && !e.OrderUpdate? && !e.BankStatus?
    ensures CommitsFrom(StepsOfEvent(e), 0, Delivery) <= 1
  {
    var steps := StepsOfEvent(e);
    match e {
      case VerifyOtp(_) => NoExternalNoCommit(steps, 0);
      case UpdateCredit(_, _, _, _, _) => NoExternalNoCommit(steps, 0);
      case ConfirmOrder(_, _, _, _) =>
        assert CommitsFrom(steps, 4, Delivery) == CommitsFrom(steps, 5, Delivery) == 0;
        assert CommitsFrom(steps, 1, Delivery) == CommitsFrom(steps, 2, Delivery) == CommitsFrom(steps, 3, Delivery);
      case BuyCardWithOtp(_, _) =>
        assert CommitsFrom(steps, 5, Delivery) == CommitsFrom(steps, 6, Delivery) ==
          CommitsFrom(steps, 7, Delivery) == 0;
        assert CommitsFrom(steps, 2, Delivery) == CommitsFrom(steps, 3, Delivery) == CommitsFrom(steps, 4, Delivery);
        assert CommitsFrom(steps, 0, Delivery) == CommitsFrom(steps, 1, Delivery) == CommitsFrom(steps, 2, Delivery);
    }
  }

  /** What a gated run asks for, bank messages aside: a card, the funding of an open wallet, or nothing. */
  lemma EventProducts(e: Event, s: State)
    requires Idle(s) == s && Admits(e, s) && !e.BankStatus?
    ensures
      var st := Handle(e, s).st;
      var product :=
        if e.BuyCardWithOtp? then [CardSale] else if e.ConfirmOrder? && e.openWallet then [WalletFunding] else [];
      && |st.products| == Tally(st.calls, Delivery)
      && (st.products == [] || st.products == product)
      && (Tally(st.calls, TxConfirm) > 0 ==> st.products == product)
  {
    var steps, s1 := StepsOfEvent(e), Entry(e, s);
    var st := Handle(e, s).st;
    EntryLive(e, s);
    StepsGuarded(e);
    StepsDeliver(e);
    Products.RunAsks(steps, e.a, 0, s1);
    TallyOfShort([], Delivery);
    AtMostOneDelivery(e, s);
    EventOffers(e);
    if st.products != [] { assert st.products[0] in Products.Offered(steps); }
    RunConfirms(steps, e.a, s, s1);
    FrontOfStop(steps, e.a, 0, s);
    if Front(steps, e.a, 0, s) == |steps| - 2 { ReachesConfirmDelivers(steps, e.a, s, s1); }
  }

  lemma EventOffers(e: Event)
    requires !e.OrderCancel? && !e.OrderUpdate? && !e.BankStatus?
    ensures
      Products.Offered(StepsOfEvent(e)) ==
        if e.BuyCardWithOtp? then {CardSale} else if e.ConfirmOrder? && e.openWallet then {WalletFunding} else {}
    ensures Applies(StepsOfEvent(e)) <==> e.BuyCardWithOtp? || (e.ConfirmOrder? && e.openWallet)
  {
    var steps := StepsOfEvent(e);
    if e.BuyCardWithOtp? { assert Asks(steps[4]) && steps[4] in steps; }
    if e.ConfirmOrder? && e.openWallet { assert Asks(steps[3]) && steps[3] in steps; }
  }

  // ----- any sequence of runs

  /** How many runs of a sequence deliver and leave the order open. */
  function Redeliverable(events: seq<Event>, s: State): nat {
    if events == [] then 0
    else
      (if Reopens(events[0], s) && Applies(StepsOfEvent(events[0])) then 1 else 0) +
      Redeliverable(events[1..], Idle(Handle(events[0], s).st))
  }

  /**
   Over any sequence of gated runs on one order, providers and banks are called at most once, plus once for every such
   run.
   */
  lemma {:induction false} DeliveriesOverRuns(events: seq<Event>, s: State)
    requires Idle(s) == s
    ensures Tally(CallsOver(events, s), Delivery) <= 1 + Redeliverable(events, s)
  {
    TallyOfShort([], Delivery);
    if events != [] {
      var s1 := Idle(Handle(events[0], s).st);
      TallyAppend(Handle(events[0], s).st.calls, CallsOver(events[1..], s1), Delivery);
      AtMostOneDelivery(events[0], s);
      DeliversOpenExactly(events[0], s);
      if Closed(s1) { NothingAfterClosing(events[1..], s1); } else { DeliveriesOverRuns(events[1..], s1); }
    }
  }

  /** ConfirmOrder for an open wallet, every call answered Ok. */
  function OpenWallet(a: Answers): Event { Event.ConfirmOrder(false, true, Ok, a) }

  lemma OpenWalletDelivers(a: Answers, s: State)
    requires Idle(s) == s && !Closed(s) && forall i: nat :: a(i) == Ok
    ensures Tally(Handle(OpenWallet(a), s).st.calls, Delivery) == 1
  {
    var e := OpenWallet(a);
    StepsDeliver(e);
    EntryLive(e, s);
    FrontOfStop(StepsOfEvent(e), a, 0, s);
    assert a(FirstStop(StepsOfEvent(e), a, 0, s)) == Ok;
    assert Asks(StepsOfEvent(e)[3]);
    ReachesConfirmDelivers(StepsOfEvent(e), a, s, Entry(e, s));
    AtMostOneDelivery(e, s);
  }

  /** An open order is delivered again by an open-wallet confirmation that is answered Ok. */
  lemma DeliveredAgain(e: Event, again: Event, s: State)
    requires Idle(s) == s && !Closed(Idle(Handle(e, s).st)) && Tally(Handle(e, s).st.calls, Delivery) == 1
    requires again.ConfirmOrder? && again == OpenWallet(again.a) && forall i: nat :: again.a(i) == Ok
    ensures Tally(CallsOver([e] + ([again] + []), s), Delivery) == 2
  {
    var s1 := Idle(Handle(e, s).st);
    OpenWalletDelivers(again.a, s1);
    Redelivery.AfterFirst(e, [again] + [], s);
    Redelivery.AfterFirst(again, [], s1);
    TallyAppend(Handle(e, s).st.calls, CallsOver([again] + [], s1), Delivery);
    assert CallsOver([again] + [], s1) == Handle(again, s1).st.calls;
  }

  /**
   Once a run has called a provider or bank, no later run ever does, whatever the runs, exactly if it did not reopen.
   */
  lemma OneDeliveryExactly(e: Event, s: State)
    requires Idle(s) == s && Tally(Handle(e, s).st.calls, Delivery) > 0
    ensures (forall more: seq<Event> :: Tally(CallsOver([e] + more, s), Delivery) == 1) <==> !Reopens(e, s)
  {
    AtMostOneDelivery(e, s);
    DeliversOpenExactly(e, s);
    if Closed(Idle(Handle(e, s).st)) {
      ClosedMeansNoReopening(e, s);
      forall more: seq<Event> ensures Tally(CallsOver([e] + more, s), Delivery) == 1 {
        Redelivery.NoMoreCalls(e, more, s);
      }
    } else {
      DeliveredAgain(e, OpenWallet((i: nat) => Ok), s);
    }
  }

  lemma ClosedMeansNoReopening(e: Event, s: State)
    requires Idle(s) == s && Closed(Idle(Handle(e, s).st))
    ensures !Reopens(e, s)
  {
    ReopensExactly(e, s);
  }
}
