/**
 The saga coordinator and its log store. Compensation is driven by the log: whatever StepExec entries the store holds
 for the execution id are compensated, latest first. Under a fresh id that is exactly Run.
 */
module Coordinator {
  import opened Statuses
  import opened Steps
  import opened Application

  datatype Entry =
    | StartSaga
    | StepExec(number: nat, failed: bool)
    | SagaAbort(count: nat)
    | StepCompensate(number: nat)
    | SagaComplete

  /** Step numbers of the StepExec entries, latest first. */
  function ToCompensate(log: seq<Entry>): seq<nat> {
    if log == [] then []
    else
      var last := log[|log| - 1];
      (if last.StepExec? then [last.number] else []) + ToCompensate(log[..|log| - 1])
  }

  lemma Appended(log: seq<Entry>, e: Entry)
    ensures ToCompensate(log + [e]) == (if e.StepExec? then [e.number] else []) + ToCompensate(log)
  {
    assert (log + [e])[..|log|] == log;
  }

  class LogStore {
    var m: map<string, seq<Entry>>

    constructor ()
      ensures m == map[]
    {
      m := map[];
    }

    function LogOf(id: string): seq<Entry>
      reads this
    {
      if id in m then m[id] else []
    }

    method AppendLog(id: string, e: Entry)
      modifies this
      ensures m == old(m)[id := old(LogOf(id)) + [e]]
    {
      m := m[id := LogOf(id) + [e]];
    }

    /** None: no logs found. */
    method GetStepLogsToCompensate(id: string) returns (res: Option<seq<nat>>)
      ensures res == if id in m then Some(ToCompensate(m[id])) else None
    {
      if id !in m { return None; }
      var logs := m[id];
      var numbers: seq<nat> := [];
      var i := |logs|;
      assert logs[..i] == logs;
      while i > 0
        invariant 0 <= i <= |logs|
        invariant numbers + ToCompensate(logs[..i]) == ToCompensate(logs)
      {
        i := i - 1;
        assert logs[..i + 1][..i] == logs[..i];
        if logs[i].StepExec? { numbers := numbers + [logs[i].number]; }
      }
      assert logs[..0] == [] && numbers + [] == numbers;
      return Some(numbers);
    }
  }

  // ----- what a log-driven run means

  /** Compensations of the numbered steps, one after the other. */
  function Compensated(steps: seq<Step>, numbers: seq<nat>, s: State): Result
    decreases |numbers|
  {
    if numbers == [] then Result(Errored, s)
    else if numbers[0] >= |steps| then Result(Panicked, s)
    else
      match Undo(steps[numbers[0]], s)
      case Next(s1) => Compensated(steps, numbers[1..], s1)
      case o => Result(Panicked, o.st)
  }

  /** n-1, ..., 0 */
  function Down(n: nat): seq<nat> {
    if n == 0 then [] else [n - 1] + Down(n - 1)
  }

  /** A run from step i on, when the log also holds the steps `stale` of an earlier execution. */
  function Played(steps: seq<Step>, stale: seq<nat>, a: Answers, i: nat, s: State): Result
    requires i <= |steps|
    decreases |steps| - i
  {
    if i == |steps| then Result(Returned, s)
    else
      match Exec(steps[i], a(i), s)
      case Next(s1) => Played(steps, stale, a, i + 1, s1)
      case Fail(s1) => Compensated(steps, Down(i + 1) + stale, s1)
      case Crash(s1) => Result(Panicked, s1)
  }

  /** The steps of this run are unwound first; what is left in the log from an earlier run is compensated after them. */
  lemma {:induction false} StaleAfterUnwind(steps: seq<Step>, n: nat, stale: seq<nat>, s: State)
    requires n <= |steps|
    ensures
      var r := Unwind(steps, n, s);
      Compensated(steps, Down(n) + stale, s) == if r.exit == Errored then Compensated(steps, stale, r.st) else r
  {
    if n == 0 {
      assert Down(0) + stale == stale;
    } else {
      assert (Down(n) + stale)[1..] == Down(n - 1) + stale;
      if Undo(steps[n - 1], s).Next? {
        StaleAfterUnwind(steps, n - 1, stale, Undo(steps[n - 1], s).st);
      }
    }
  }

  /** A run under a log with stale entries differs from Run exactly by compensating those too, after a failure. */
  lemma {:induction false} PlayedIsRun(steps: seq<Step>, stale: seq<nat>, a: Answers, i: nat, s: State)
    requires i <= |steps|
    ensures
      var r := Run(steps, a, i, s);
      Played(steps, stale, a, i, s) == if r.exit == Errored then Compensated(steps, stale, r.st) else r
    decreases |steps| - i
  {
    if i < |steps| {
      var o := Exec(steps[i], a(i), s);
      match o {
        case Next(s1) => PlayedIsRun(steps, stale, a, i + 1, s1);
        case Fail(s1) => StaleAfterUnwind(steps, i + 1, stale, s1);
        case Crash(_) =>
      }
    }
  }

  /** How many of these steps have a compensation that returns an error. */
  function Complaints(steps: seq<Step>, numbers: seq<nat>): nat {
    if numbers == [] then 0
    else
      var n := numbers[|numbers| - 1];
      Complaints(steps, numbers[..|numbers| - 1]) + if n < |steps| && steps[n].RejectBankFailure? then 1 else 0
  }

  lemma CompensatedInTurn(steps: seq<Step>, numbers: seq<nat>, k: nat, s: State)
    requires k < |numbers| && numbers[k] < |steps|
    ensures
      var o := Undo(steps[numbers[k]], s);
      Compensated(steps, numbers[k..], s) ==
        if o.Next? then Compensated(steps, numbers[k + 1..], o.st) else Result(Panicked, o.st)
    ensures Complaints(steps, numbers[..k + 1]) ==
      Complaints(steps, numbers[..k]) + if steps[numbers[k]].RejectBankFailure? then 1 else 0
  {
    assert numbers[k..][1..] == numbers[k + 1..] && numbers[..k + 1][..k] == numbers[..k];
  }

  // ----- the coordinator

  class ExecutionCoordinator {
    const id: string
    const steps: seq<Step>
    const store: LogStore
    const session: Session
    var aborted: bool
    var executionError: bool
    var compensateErrors: nat

    constructor (id: string, steps: seq<Step>, store: LogStore, session: Session)
      ensures this.id == id && this.steps == steps && this.store == store && this.session == session
      ensures !aborted && !executionError && compensateErrors == 0
    {
      this.id, this.steps, this.store, this.session := id, steps, store, session;
      aborted, executionError, compensateErrors := false, false, 0;
    }

    /** Other executions' logs are left alone. */
    twostate predicate OnlyOwnLog()
      reads store
    {
      forall other | other != id ::
        (other in store.m <==> other in old(store.m)) && (other in store.m ==> store.m[other] == old(store.m)[other])
    }

    /**
     A run is Run, followed, if it fails, by the compensation of whatever the log held for this id before: under a
     fresh id it is exactly Run.
     */
    method Play(a: Answers) returns (exit: Exit)
      requires !aborted && !executionError
      modifies this, store, session
      ensures OnlyOwnLog()
      ensures
        var r := Run(steps, a, 0, old(session.View()));
        Result(exit, session.View()) ==
          if r.exit == Errored then Compensated(steps, ToCompensate(old(store.LogOf(id))), r.st) else r
      ensures id !in old(store.m) ==> Result(exit, session.View()) == Run(steps, a, 0, old(session.View()))
    {
      PlayedIsRun(steps, ToCompensate(store.LogOf(id)), a, 0, session.View());
      Appended(store.LogOf(id), StartSaga);
      store.AppendLog(id, StartSaga);
      exit := PlaySteps(a, ToCompensate(old(store.LogOf(id))));
      if exit != Panicked { store.AppendLog(id, SagaComplete); }
    }

    method PlaySteps(a: Answers, ghost stale: seq<nat>) returns (exit: Exit)
      requires !aborted && !executionError && id in store.m && ToCompensate(store.m[id]) == stale
      modifies this, store, session
      ensures OnlyOwnLog() && id in store.m
      ensures Result(exit, session.View()) == Played(steps, stale, a, 0, old(session.View()))
    {
      ghost var all := Played(steps, stale, a, 0, session.View());
      assert Down(0) + stale == stale;
      var i := 0;
      while i < |steps|
        invariant 0 <= i <= |steps|
        invariant OnlyOwnLog() && id in store.m && executionError == aborted
        invariant aborted ==> all == Result(Errored, session.View())
        invariant !aborted ==>
          ToCompensate(store.m[id]) == Down(i) + stale && all == Played(steps, stale, a, i, session.View())
      {
        var signal := ExecStep(i, a, stale);
        if signal == NilPanic { return Panicked; }
        i := i + 1;
      }
      exit := if executionError then Errored else Returned;
    }

    method ExecStep(i: nat, a: Answers, ghost stale: seq<nat>) returns (signal: Signal)
      requires i < |steps| && id in store.m && executionError == aborted
      requires !aborted ==> ToCompensate(store.m[id]) == Down(i) + stale
      modifies this, store, session
      ensures OnlyOwnLog() && id in store.m && (signal != NilPanic ==> executionError == aborted)
      ensures old(aborted) ==> signal == NoError && aborted && session.View() == old(session.View())
      ensures !old(aborted) ==>
        var before := old(session.View());
        match signal
        case NoError => !aborted && ToCompensate(store.m[id]) == Down(i + 1) + stale
          && Exec(steps[i], a(i), before) == Next(session.View())
        case Error => aborted && Played(steps, stale, a, i, before) == Result(Errored, session.View())
        case NilPanic => Played(steps, stale, a, i, before) == Result(Panicked, session.View())
    {
      if aborted { return NoError; }
      signal := session.Execute(steps[i], a(i));
      if signal == NilPanic { return; }
      LogStep(i, signal == Error, stale);
      if signal == Error {
        executionError := true;
        var ok := Abort();
        if !ok { signal := NilPanic; }
      }
    }

    method LogStep(i: nat, failed: bool, ghost stale: seq<nat>)
      requires id in store.m && ToCompensate(store.m[id]) == Down(i) + stale
      modifies store
      ensures OnlyOwnLog() && id in store.m && ToCompensate(store.m[id]) == Down(i + 1) + stale
    {
      Appended(store.m[id], StepExec(i, failed));
      store.AppendLog(id, StepExec(i, failed));
      assert [i] + (Down(i) + stale) == Down(i + 1) + stale;
    }

    /** Compensations that return an error are counted and do not stop the rest; only a panic does. */
    method Abort() returns (ok: bool)
      requires id in store.m
      modifies this`aborted, this`compensateErrors, store, session
      ensures OnlyOwnLog() && id in store.m
      ensures Result(if ok then Errored else Panicked, session.View()) ==
        Compensated(steps, ToCompensate(old(store.m)[id]), old(session.View()))
      ensures ok ==> aborted
      ensures ok ==>
        compensateErrors == old(compensateErrors) + Complaints(steps, ToCompensate(old(store.m)[id]))
    {
      var found := store.GetStepLogsToCompensate(id);
      var numbers := found.value;
      store.AppendLog(id, SagaAbort(|numbers|));
      aborted := true;
      ghost var s0 := session.View();
      for k := 0 to |numbers|
        invariant OnlyOwnLog() && id in store.m && aborted
        invariant compensateErrors == old(compensateErrors) + Complaints(steps, numbers[..k])
        invariant Compensated(steps, numbers, s0) == Compensated(steps, numbers[k..], session.View())
      {
        if numbers[k] >= |steps| { return false; }
        CompensatedInTurn(steps, numbers, k, session.View());
        ok := CompensateLogged(numbers[k]);
        if !ok { return; }
      }
      assert numbers[..|numbers|] == numbers;
      return true;
    }

    /** One logged step: its error is counted, and only its panic reported. */
    method CompensateLogged(i: nat) returns (ok: bool)
      requires i < |steps| && id in store.m
      modifies this`compensateErrors, store, session
      ensures OnlyOwnLog() && id in store.m
      ensures Undo(steps[i], old(session.View())) == if ok then Next(session.View()) else Crash(session.View())
      ensures ok ==> compensateErrors == old(compensateErrors) + if steps[i].RejectBankFailure? then 1 else 0
    {
      var signal := CompensateStep(i);
      if signal == Error { compensateErrors := compensateErrors + 1; }
      ok := signal != NilPanic;
    }

    method CompensateStep(i: nat) returns (signal: Signal)
      requires i < |steps| && id in store.m
      modifies store, session
      ensures OnlyOwnLog() && id in store.m
      ensures Undo(steps[i], old(session.View())) == if signal == NilPanic then Crash(session.View())
        else Next(session.View())
      ensures signal == Error <==> steps[i].RejectBankFailure?
    {
      store.AppendLog(id, StepCompensate(i));
      signal := session.Compensate(steps[i]);
    }
  }
}
