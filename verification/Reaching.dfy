/** How far a run on an existing order gets, read off its answers. */
module Reaching {
  import opened Statuses
  import opened Steps
  import opened Gated
  import opened BankStatus
  import opened Sagas

  /** Does the step return something other than nil, on an order and transaction stored as in s0? */
  predicate Stops(step: Step, r: Reply, s0: State) {
    match step
    case FindOrder => r.Err? || Closed(s0)
    case FindTx(_) => r.Err? || s0.tx.None?
    case RejectBankFailure(accepted) => !accepted
    case EnterOtp => r != Ok
    case UseVoucher(given, _) => given && r.Err?
    case External(applies, _) => applies && (r.Err? || r.Later?)
    case CardFee(strict) => strict && r.Err?
    case _ => r.Err?
  }

  /** Position of the first step that stops the run, |steps| if none does. */
  function FirstStop(steps: seq<Step>, a: Answers, i: nat, s0: State): (k: nat)
    requires i <= |steps|
    ensures i <= k <= |steps|
    ensures k < |steps| ==> Stops(steps[k], a(k), s0)
    decreases |steps| - i
  {
    if i == |steps| || Stops(steps[i], a(i), s0) then i else FirstStop(steps, a, i + 1, s0)
  }

  lemma {:induction false} PassedBefore(steps: seq<Step>, a: Answers, i: nat, s0: State)
    requires i <= |steps|
    ensures forall j | i <= j < FirstStop(steps, a, i, s0) :: !Stops(steps[j], a(j), s0)
    decreases |steps| - i
  {
    if i < |steps| && !Stops(steps[i], a(i), s0) { PassedBefore(steps, a, i + 1, s0); }
  }

  lemma {:induction false} FirstStopAt(steps: seq<Step>, a: Answers, i: nat, k: nat, s0: State)
    requires i <= k < |steps| && Stops(steps[k], a(k), s0) && forall j | i <= j < k :: !Stops(steps[j], a(j), s0)
    ensures FirstStop(steps, a, i, s0) == k
    decreases k - i
  {
    if i < k { FirstStopAt(steps, a, i + 1, k, s0); }
  }

  /** Lookups come first, confirmation last. */
  predicate Guarded(steps: seq<Step>) {
    && ConfirmsLast(steps) && !steps[0].InitTx?
    && forall i | 0 <= i < |steps| :: (steps[i].FindOrder? ==> i == 0) && (steps[i].FindTx? ==> i == 1)
  }

  /** A step from i on, before the confirmation, brings the transaction. */
  predicate Supplies(steps: seq<Step>, i: nat) {
    exists j | i <= j < |steps| - 2 :: steps[j].InitTx? || steps[j].FindTx?
  }

  /** State in which step i is reached: the order still open, the records there or still to come. */
  predicate Live(steps: seq<Step>, i: nat, s0: State, s: State)
    requires i < |steps|
  {
    && !Closed(s) && (s.order.Some? ==> !Final(s.order.value))
    && (s.order.Some? || steps[i].FindOrder?)
    && ((s.trans.Some? && s.tx.Some?) || Supplies(steps, i))
    && (i <= 1 ==> s.tx == s0.tx) && (i == 0 ==> s.db == s0.db && s.expired == s0.expired)
  }

  /** A step before the confirmation. */
  predicate Early(step: Step) { !step.ConfirmTx? && !step.SucceedOrder? && !step.InitOrder? }

  lemma StepStops(step: Step, r: Reply, s0: State, s: State)
    requires Early(step) && (s.order.Some? || step.FindOrder?)
    requires step.FindOrder? ==> s.db == s0.db && s.expired == s0.expired
    requires step.FindTx? ==> s.tx == s0.tx
    ensures Exec(step, r, s).Next? <==> !Stops(step, r, s0)
  {
  }

  lemma StepKeepsOpen(step: Step, r: Reply, s: State)
    requires Early(step) && !Closed(s) && (s.order.Some? ==> !Final(s.order.value)) && Exec(step, r, s).Next?
    ensures
      var s1 := Exec(step, r, s).st;
      && !Closed(s1) && (s1.order.Some? ==> !Final(s1.order.value))
      && (s.order.Some? || step.FindOrder? ==> s1.order.Some?)
  {
  }

  lemma StepSupplies(step: Step, r: Reply, s: State)
    requires Early(step) && Exec(step, r, s).Next?
    ensures
      var s1 := Exec(step, r, s).st;
      if step.InitTx? || step.FindTx? then s1.trans.Some? && s1.tx.Some? else s1.trans == s.trans && s1.tx == s.tx
  {
  }

  lemma LiveStep(steps: seq<Step>, i: nat, r: Reply, s0: State, s: State)
    requires Guarded(steps) && i < |steps| - 2 && Live(steps, i, s0, s)
    ensures Exec(steps[i], r, s).Next? <==> !Stops(steps[i], r, s0)
    ensures Exec(steps[i], r, s).Next? ==> Live(steps, i + 1, s0, Exec(steps[i], r, s).st)
  {
    var step := steps[i];
    StepStops(step, r, s0, s);
    if Exec(step, r, s).Next? {
      StepKeepsOpen(step, r, s);
      StepSupplies(step, r, s);
      if Supplies(steps, i) && !step.InitTx? && !step.FindTx? { assert Supplies(steps, i + 1); }
      if i == 0 { FirstKeepsTx(steps, r, s); }
    }
  }

  lemma FirstKeepsTx(steps: seq<Step>, r: Reply, s: State)
    requires Guarded(steps) && |steps| > 2 && Exec(steps[0], r, s).Next? && !steps[0].InitTx?
    ensures Exec(steps[0], r, s).st.tx == s.tx
  {
    StepSupplies(steps[0], r, s);
  }

  /** The step at which a run halts is the first that its answers stop. */
  lemma {:induction false} HaltIsFirstStop(steps: seq<Step>, a: Answers, i: nat, s0: State, s: State)
    requires Guarded(steps) && i <= |steps| - 2 && Live(steps, i, s0, s)
    ensures Halt(steps, a, i, s) == FirstStop(steps, a, i, s0)
    decreases |steps| - i
  {
    if i < |steps| - 2 {
      LiveStep(steps, i, a(i), s0, s);
      if Exec(steps[i], a(i), s).Next? { HaltIsFirstStop(steps, a, i + 1, s0, Exec(steps[i], a(i), s).st); }
    } else {
      LastStops(steps, a, s0, s);
    }
  }

  lemma LastStops(steps: seq<Step>, a: Answers, s0: State, s: State)
    requires Guarded(steps) && Live(steps, |steps| - 2, s0, s)
    ensures Halt(steps, a, |steps| - 2, s) == FirstStop(steps, a, |steps| - 2, s0)
  {
    var i := |steps| - 2;
    var o := ConfirmTrans(s, a(i));
    assert Exec(steps[i], a(i), s) == o;
    if o.Next? {
      var p := WriteOrder(o.st, Success, PutSuccess, a(i + 1));
      assert Exec(steps[i + 1], a(i + 1), o.st) == p;
      assert p.Next? <==> !a(i + 1).Err?;
    }
  }

  /** Where the run first stops or, if that is later, the confirmation. */
  function Front(steps: seq<Step>, a: Answers, i: nat, s0: State): (k: nat)
    requires |steps| >= 2 && i <= |steps| - 2
    ensures i <= k <= |steps| - 2
    decreases |steps| - i
  {
    if i == |steps| - 2 || Stops(steps[i], a(i), s0) then i else Front(steps, a, i + 1, s0)
  }

  lemma {:induction false} FrontOfStop(steps: seq<Step>, a: Answers, i: nat, s0: State)
    requires |steps| >= 2 && i <= |steps| - 2
    ensures FirstStop(steps, a, i, s0) == FirstStop(steps, a, Front(steps, a, i, s0), s0)
    ensures Front(steps, a, i, s0) < |steps| - 2 ==> FirstStop(steps, a, i, s0) == Front(steps, a, i, s0)
    decreases |steps| - i
  {
    if i < |steps| - 2 && !Stops(steps[i], a(i), s0) { FrontOfStop(steps, a, i + 1, s0); }
  }

  /**
   The run gets to its front, and by then has confirmed nothing and holds a voucher if it redeemed one or held one
   before.
   */
  lemma {:induction false} RunsToFront(steps: seq<Step>, a: Answers, i: nat, held: bool, s0: State, s: State)
    returns (sk: State)
    requires Guarded(steps) && i <= |steps| - 2 && Live(steps, i, s0, s)
    ensures
      var k := Front(steps, a, i, s0);
      && Live(steps, k, s0, sk) && Run(steps, a, i, s) == Run(steps, a, k, sk)
      && Tally(sk.calls, TxConfirm) == Tally(s.calls, TxConfirm) && sk.pending == s.pending
      && ((forall j | i <= j < k :: !Asks(steps[j])) ==>
        Tally(sk.calls, Delivery) <= Tally(s.calls, Delivery))
      && (s.voucher == (held || GivenBelow(steps, i)) ==> sk.voucher == (held || GivenBelow(steps, k)))
    decreases |steps| - i
  {
    sk := s;
    if i < |steps| - 2 && !Stops(steps[i], a(i), s0) {
      LiveStep(steps, i, a(i), s0, s);
      OneStep(steps, a, i, s);
      EarlierStep(steps[i], a(i), s);
      StepHolds(steps[i], a(i), s);
      ExecTally(steps[i], a(i), s, Delivery);
      sk := RunsToFront(steps, a, i + 1, held, s0, Exec(steps[i], a(i), s).st);
    }
  }

  lemma StepHolds(step: Step, r: Reply, s: State)
    requires Exec(step, r, s).Next?
    ensures Exec(step, r, s).st.voucher == (s.voucher || (step.UseVoucher? && step.given))
    ensures Exec(step, r, s).st.pending == s.pending
  {
  }

  // ----- calls

  lemma {:induction false} RunKeepsCalls(steps: seq<Step>, a: Answers, i: nat, s: State)
    requires i <= |steps|
    ensures s.calls <= Run(steps, a, i, s).st.calls
    decreases |steps| - i
  {
    if i < |steps| {
      ExecCommits(steps[i], a(i), s);
      OneStep(steps, a, i, s);
      var o := Exec(steps[i], a(i), s);
      if o.Next? { RunKeepsCalls(steps, a, i + 1, o.st); }
      if o.Fail? { UnwindOnlyRepairs(steps, i + 1, o.st); }
    }
  }

  /** Before its front a run passes every step. */
  lemma {:induction false} RunsTo(steps: seq<Step>, a: Answers, i: nat, p: nat, s0: State, s: State) returns (sp: State)
    requires Guarded(steps) && i <= |steps| - 2 && Live(steps, i, s0, s) && i <= p <= Front(steps, a, i, s0)
    ensures Live(steps, p, s0, sp) && Run(steps, a, i, s) == Run(steps, a, p, sp)
    decreases p - i
  {
    sp := s;
    if i < p {
      LiveStep(steps, i, a(i), s0, s);
      OneStep(steps, a, i, s);
      sp := RunsTo(steps, a, i + 1, p, s0, Exec(steps[i], a(i), s).st);
    }
  }

  /** A run that gets past an applicable external step has called the provider or bank. */
  lemma PassedExternal(steps: seq<Step>, a: Answers, p: nat, s0: State, s: State)
    requires Guarded(steps) && Live(steps, 0, s0, s) && p < Front(steps, a, 0, s0) && Asks(steps[p])
    ensures Delivery in Run(steps, a, 0, s).st.calls
  {
    var sp := RunsTo(steps, a, 0, p, s0, s);
    LiveStep(steps, p, a(p), s0, sp);
    OneStep(steps, a, p, sp);
    DeliversNow(steps[p], a(p), sp);
    var s2 := Exec(steps[p], a(p), sp).st;
    if Exec(steps[p], a(p), sp).Next? {
      RunKeepsCalls(steps, a, p + 1, s2);
    } else if Exec(steps[p], a(p), sp).Fail? {
      UnwindOnlyRepairs(steps, p + 1, s2);
    }
    assert s2.calls[|s2.calls| - 1] == Delivery;
  }

  lemma DeliversNow(step: Step, r: Reply, s: State)
    requires Asks(step)
    ensures Exec(step, r, s).st.calls == s.calls + [Delivery] && !Exec(step, r, s).Crash?
  {
  }
}
