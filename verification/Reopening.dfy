/** Which runs attempt ConfirmTransaction and still leave the order open, and how often it is attempted in all. */
module Reopening {
  import opened Statuses
  import opened Steps
  import opened Gated
  import opened BankStatus
  import opened Reaching
  import Sagas
  import Otp
  import Records

  // ----- one run

  /** The saga a run plays once it is let in, if it is one that confirms. */
  function StepsOfEvent(e: Event): seq<Step>
    requires !e.OrderCancel? && !e.OrderUpdate?
  {
    match e
    case VerifyOtp(_) => Sagas.VerifyOtp()
    case BuyCardWithOtp(v, _) => Sagas.BuyCardWithOtp(v)
    case BankStatus(m, _) => UpdateBankStatus(m)
    case ConfirmOrder(v, w, _, _) => Sagas.ConfirmOrder(v, w)
    case UpdateCredit(_, _, _, _, _) => Sagas.ConfirmCredit()
  }

  /** The operation gets as far as its saga. */
  predicate Admits(e: Event, s: State) {
    match e
    case ConfirmOrder(_, _, lookup, _) => LetsIn(lookup, s)
    case UpdateCredit(status, lookup, find, bank, _) =>
      && LetsIn(lookup, s) && !find.Err? && s.tx.Some?
      && (status == CreditSuccess || (status == CreditVerifying && bank == Ok))
    case OrderCancel(_, _, _, _) => false
    case OrderUpdate(_, _, _) => false
    case _ => !Closed(s)
  }

  /** The answers at the last two steps after which the order is as open as before. */
  predicate LeavesOpenAt(steps: seq<Step>, k: nat, r: Reply)
    requires ConfirmsLast(steps)
  {
    r.Err? && !r.record && ((k == |steps| - 2 && !steps[k].nilSafe) || (k == |steps| - 1 && !r.applied))
  }

  predicate ReopensRun(steps: seq<Step>, a: Answers, s0: State)
    requires ConfirmsLast(steps)
  {
    var k := FirstStop(steps, a, 0, s0);
    LeavesOpenAt(steps, k, a(k))
  }

  lemma StepsGuarded(e: Event)
    requires !e.OrderCancel? && !e.OrderUpdate?
    ensures Guarded(StepsOfEvent(e))
  {
  }

  /** The run is let in, its first stop is the confirmation or the last write, and that call failed without a record. */
  predicate Reopens(e: Event, s: State) {
    Admits(e, s) && (StepsGuarded(e); ReopensRun(StepsOfEvent(e), e.a, s))
  }

  /** r has attempted ConfirmTransaction since s and left the order open. */
  predicate ConfirmedOpen(s: State, r: Result) {
    Tally(r.st.calls, TxConfirm) > Tally(s.calls, TxConfirm) && !Closed(r.st)
  }

  lemma FailedConfirm(steps: seq<Step>, n: nat, r: Reply, s: State)
    requires 0 < n <= |steps| && steps[n - 1].ConfirmTx? && !Closed(s) && s.order.Some? && s.order != Some(Verifying)
    requires s.trans.Some? && r.Err?
    ensures
      var s1 := ConfirmTrans(s, r).st;
      var res := Unwind(steps, n, s1);
      && Tally(res.st.calls, TxConfirm) == Tally(s.calls, TxConfirm) + 1
      && (Closed(res.st) <==> r.record || steps[n - 1].nilSafe)
  {
    ConfirmCounts(s, r);
    var s1 := ConfirmTrans(s, r).st;
    ParkAndUnwind(steps, n, s1);
    if r.record {
      UnwindNeverNil(steps, n, s1);
    } else if steps[n - 1].nilSafe {
      var u := Undo(steps[n - 1], s1);
      assert u.Next? && Shut(u.st);
      UnwindStaysShut(steps, n - 1, u.st);
    } else {
      assert Undo(steps[n - 1], s1) == Crash(s1);
    }
  }

  lemma FailedSuccess(steps: seq<Step>, n: nat, r: Reply, s: State)
    requires 0 < n <= |steps| && steps[n - 1].SucceedOrder? && !Closed(s) && s.order.Some? && s.order != Some(Verifying)
    requires s.trans.Some? && r.Err?
    ensures
      var s1 := WriteOrder(s, Success, PutSuccess, r).st;
      var res := Unwind(steps, n, s1);
      && Tally(res.st.calls, TxConfirm) == Tally(s.calls, TxConfirm)
      && (Closed(res.st) <==> r.record || r.applied)
  {
    WriteSucceeds(s, r);
    var s1 := WriteOrder(s, Success, PutSuccess, r).st;
    ParkAndUnwind(steps, n, s1);
    if r.record {
      UnwindNeverNil(steps, n, s1);
    } else {
      var u := Undo(steps[n - 1], s1);
      assert u.Crash? && u.st.db == s1.db && u.st.expired == s.expired;
    }
  }

  lemma LastTwoSteps(steps: seq<Step>, a: Answers, s0: State, s: State)
    requires Guarded(steps) && Live(steps, |steps| - 2, s0, s)
    ensures
      var k := FirstStop(steps, a, |steps| - 2, s0);
      ConfirmedOpen(s, Run(steps, a, |steps| - 2, s)) <==> LeavesOpenAt(steps, k, a(k))
  {
    var i := |steps| - 2;
    var o := ConfirmTrans(s, a(i));
    assert Exec(steps[i], a(i), s) == o;
    OneStep(steps, a, i, s);
    if a(i).Err? {
      FailedConfirm(steps, i + 1, a(i), s);
    } else {
      ConfirmCounts(s, a(i));
      LastStep(steps, a, s0, o.st);
    }
  }

  lemma LastStep(steps: seq<Step>, a: Answers, s0: State, s: State)
    requires ConfirmsLast(steps) && !Closed(s) && s.order.Some? && s.order != Some(Verifying) && s.trans.Some?
    ensures
      var i := |steps| - 1;
      var r := Run(steps, a, i, s);
      Tally(r.st.calls, TxConfirm) == Tally(s.calls, TxConfirm) &&
      (Closed(r.st) <==> !a(i).Err? || a(i).record || a(i).applied)
  {
    var i := |steps| - 1;
    assert Exec(steps[i], a(i), s) == WriteOrder(s, Success, PutSuccess, a(i));
    OneStep(steps, a, i, s);
    WriteSucceeds(s, a(i));
    if a(i).Err? { FailedSuccess(steps, i + 1, a(i), s); }
  }

  /** A run attempts the confirmation and leaves the order open exactly if its answers say so. */
  lemma RunReopens(steps: seq<Step>, a: Answers, s0: State, s: State)
    requires Guarded(steps) && Live(steps, 0, s0, s)
    ensures
      var k := FirstStop(steps, a, 0, s0);
      ConfirmedOpen(s, Run(steps, a, 0, s)) <==> LeavesOpenAt(steps, k, a(k))
  {
    var sk := RunsToFront(steps, a, 0, s.voucher, s0, s);
    FrontOfStop(steps, a, 0, s0);
    var k := Front(steps, a, 0, s0);
    if k == |steps| - 2 {
      LastTwoSteps(steps, a, s0, sk);
      assert ConfirmedOpen(s, Run(steps, a, 0, s)) == ConfirmedOpen(sk, Run(steps, a, k, sk));
    } else {
      StopsEarly(steps, a, k, s0, sk);
      assert FirstStop(steps, a, 0, s0) == k;
    }
  }

  /** A run that stops before the confirmation makes none, its compensations included. */
  lemma StopsEarly(steps: seq<Step>, a: Answers, k: nat, s0: State, s: State)
    requires Guarded(steps) && k < |steps| - 2 && Live(steps, k, s0, s) && Stops(steps[k], a(k), s0)
    ensures Tally(Run(steps, a, k, s).st.calls, TxConfirm) == Tally(s.calls, TxConfirm)
  {
    LiveStep(steps, k, a(k), s0, s);
    EarlierStep(steps[k], a(k), s);
    OneStep(steps, a, k, s);
    var o := Exec(steps[k], a(k), s);
    if o.Fail? {
      UnwindOnlyRepairs(steps, k + 1, o.st);
      SameTally(o.st.calls, Unwind(steps, k + 1, o.st).st.calls, TxConfirm);
    }
  }

  /** Exactly the reopening runs confirm and leave the order open. */
  lemma ReopensExactly(e: Event, s: State)
    requires Idle(s) == s
    ensures Tally(Handle(e, s).st.calls, TxConfirm) > 0 && !Closed(Idle(Handle(e, s).st)) <==> Reopens(e, s)
  {
    if Closed(s) {
      ClosedIsAbsorbing(e, s);
    } else if !Admits(e, s) {
      NotAdmitted(e, s);
    } else {
      var steps := StepsOfEvent(e);
      StepsGuarded(e);
      var s1 := Entry(e, s);
      EntryLive(e, s);
      RunReopens(steps, e.a, s, s1);
    }
  }

  /** The state in which an admitted operation's saga starts. */
  function Entry(e: Event, s: State): State {
    match e
    case ConfirmOrder(_, _, _, _) => s.(order := s.db)
    case UpdateCredit(_, _, _, _, _) => s.(order := s.db, trans := s.tx)
    case _ => s
  }

  lemma EntryLive(e: Event, s: State)
    requires Idle(s) == s && Admits(e, s)
    ensures Live(StepsOfEvent(e), 0, s, Entry(e, s)) && Handle(e, s) == Run(StepsOfEvent(e), e.a, 0, Entry(e, s))
  {
    var steps := StepsOfEvent(e);
    if e.ConfirmOrder? { assert steps[2].InitTx?; } else if !e.UpdateCredit? { assert steps[1].FindTx?; }
  }

  lemma NotAdmitted(e: Event, s: State)
    requires Idle(s) == s && !Admits(e, s) && !Closed(s)
    ensures Tally(Handle(e, s).st.calls, TxConfirm) == 0
  {
    if e.UpdateCredit? && LetsIn(e.lookup, s) && !e.find.Err? && s.tx.Some? {
      var s1 := s.(order := s.db, trans := s.tx);
      CreditOnlyRepairs(e, s1);
      SameTally(s.calls, Credit(e, s1).st.calls, TxConfirm);
    } else if e.OrderCancel? && LetsIn(e.lookup, s) {
      SameTally(s.calls, Handle(e, s).st.calls, TxConfirm);
    }
  }

  // ----- any sequence of runs

  /** How many runs of a sequence reopen. */
  function Reopenings(events: seq<Event>, s: State): nat {
    if events == [] then 0
    else (if Reopens(events[0], s) then 1 else 0) + Reopenings(events[1..], Idle(Handle(events[0], s).st))
  }

  /**
   Over any sequence of runs on one order, ConfirmTransaction is attempted at most once, plus once for every run that
   reopens; without such runs, at most once.
   */
  lemma {:induction false} AtMostOneConfirm(events: seq<Event>, s: State)
    requires Idle(s) == s
    ensures Confirms(events, s) <= 1 + Reopenings(events, s)
  {
    if events != [] {
      HandleConfirmsOnce(events[0], s);
      ReopensExactly(events[0], s);
      var s1 := Idle(Handle(events[0], s).st);
      if Closed(s1) { NothingAfterClosing(events[1..], s1); } else { AtMostOneConfirm(events[1..], s1); }
    }
  }

  lemma CountsOf(e: Event, rest: seq<Event>, s: State)
    ensures Confirms([e] + rest, s) == Tally(Handle(e, s).st.calls, TxConfirm) + Confirms(rest, Idle(Handle(e, s).st))
    ensures Reopenings([e] + rest, s) == (if Reopens(e, s) then 1 else 0) + Reopenings(rest, Idle(Handle(e, s).st))
  {
    assert ([e] + rest)[1..] == rest;
  }

  /** How often a run that gets as far as its saga confirms: once if nothing stops it earlier. */
  lemma RunConfirms(steps: seq<Step>, a: Answers, s0: State, s: State)
    requires Guarded(steps) && Live(steps, 0, s0, s)
    ensures Tally(Run(steps, a, 0, s).st.calls, TxConfirm) ==
      Tally(s.calls, TxConfirm) + if FirstStop(steps, a, 0, s0) >= |steps| - 2 then 1 else 0
  {
    var sk := RunsToFront(steps, a, 0, s.voucher, s0, s);
    FrontOfStop(steps, a, 0, s0);
    var k := Front(steps, a, 0, s0);
    if k == |steps| - 2 { TailConfirms(steps, a, s0, sk); } else { StopsEarly(steps, a, k, s0, sk); }
  }

  lemma TailConfirms(steps: seq<Step>, a: Answers, s0: State, s: State)
    requires Guarded(steps) && Live(steps, |steps| - 2, s0, s)
    ensures Tally(Run(steps, a, |steps| - 2, s).st.calls, TxConfirm) == Tally(s.calls, TxConfirm) + 1
  {
    var i := |steps| - 2;
    assert Exec(steps[i], a(i), s) == ConfirmTrans(s, a(i));
    OneStep(steps, a, i, s);
    if a(i).Err? {
      FailedConfirm(steps, i + 1, a(i), s);
    } else {
      ConfirmCounts(s, a(i));
      LastStep(steps, a, s0, ConfirmTrans(s, a(i)).st);
    }
  }

  /** ConfirmOrder on any open order, every call answered Ok. */
  function Retry(): Event { Event.ConfirmOrder(false, false, Ok, (i: nat) => Ok) }

  lemma RetryConfirms(s: State)
    requires Idle(s) == s && !Closed(s)
    ensures Tally(Handle(Retry(), s).st.calls, TxConfirm) == 1
  {
    EntryLive(Retry(), s);
    StepsGuarded(Retry());
    RunConfirms(StepsOfEvent(Retry()), Retry().a, s, Entry(Retry(), s));
  }

  /**
   Once a run has attempted the confirmation, no later run ever does, whatever they are, exactly if it did not reopen.
   */
  lemma OneConfirmExactly(e: Event, s: State)
    requires Idle(s) == s && Tally(Handle(e, s).st.calls, TxConfirm) > 0
    ensures (forall more: seq<Event> :: Confirms([e] + more, s) == 1) <==> !Reopens(e, s)
  {
    HandleConfirmsOnce(e, s);
    ReopensExactly(e, s);
    var s1 := Idle(Handle(e, s).st);
    if Reopens(e, s) {
      CountsOf(e, [Retry()] + [], s);
      RetryConfirms(s1);
      CountsOf(Retry(), [], s1);
      assert Confirms([e] + ([Retry()] + []), s) >= 2;
    } else {
      forall more: seq<Event> ensures Confirms([e] + more, s) == 1 {
        CountsOf(e, more, s);
        NothingAfterClosing(more, s1);
      }
    }
  }

  /** Two attempts: VerifyOTP with a nil record at the confirmation, then any operation that confirms. */
  lemma SecondConfirm(bad: Answers, s: State)
    requires Idle(s) == s && !Closed(s) && s.tx.Some?
    requires bad(0) == bad(1) == bad(2) == Ok && bad(3) == Err(false, false)
    ensures
      var runs := [VerifyOtp(bad)] + ([Retry()] + []);
      Confirms(runs, s) == 2 && Reopenings(runs, s) == 1
  {
    var first := VerifyOtp(bad);
    var s1 := Idle(Handle(first, s).st);
    Otp.ConfirmPanics(bad, s);
    ReopensExactly(first, s);
    RetryConfirms(s1);
    RetryCloses(s1);
    CountsOf(first, [Retry()] + [], s);
    CountsOf(Retry(), [], s1);
  }

  lemma RetryCloses(s: State)
    requires Idle(s) == s && !Closed(s)
    ensures !Reopens(Retry(), s)
  {
  }

  // ----- with records

  /** Failing calls that return a record never reopen an order. */
  lemma RecordsNeverReopen(e: Event, s: State)
    requires Records.AllRecorded(e)
    ensures !Reopens(e, s)
  {
    if Admits(e, s) {
      StepsGuarded(e);
      assert Records.Recorded(e.a(FirstStop(StepsOfEvent(e), e.a, 0, s)));
    }
  }

  /**
   Over any sequence of gated runs whose failing calls return records, ConfirmTransaction is attempted at most once.
   */
  lemma OneConfirmWithRecords(events: seq<Event>, s: State)
    requires Idle(s) == s && forall e | e in events :: Records.AllRecorded(e)
    ensures Confirms(events, s) <= 1
  {
    NoReopenings(events, s);
    AtMostOneConfirm(events, s);
  }

  lemma {:induction false} NoReopenings(events: seq<Event>, s: State)
    requires forall e | e in events :: Records.AllRecorded(e)
    ensures Reopenings(events, s) == 0
  {
    if events != [] {
      RecordsNeverReopen(events[0], s);
      NoReopenings(events[1..], Idle(Handle(events[0], s).st));
    }
  }
}
