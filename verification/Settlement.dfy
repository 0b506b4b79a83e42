/** Every ending of a shaped saga: which (order, transaction) pair it leaves, with which calls, and when they agree. */
module Settlement {
  import opened Statuses
  import opened Steps
  import opened Sagas

  datatype Ending = Untouched | Paid | Waiting | Refused | Torn

  /** The pairs that agree: nothing done, or one of three settled pairs. */
  predicate Agree(before: State, s: State) {
    || (s.db == before.db && s.tx.None?)
    || (s.db == Some(Success) && s.tx == Some(TxFinish))
    || (s.db == Some(Verifying) && s.tx == Some(TxPending))
    || (s.db == Some(Failed) && (s.tx.None? || s.tx == Some(TxFailed)))
  }

  /** Does this answer make the step return an error? */
  predicate Fails(step: Step, r: Reply) {
    match step
    case UseVoucher(given, _) => given && r.Err?
    case External(applies, _) => applies && (r.Err? || r.Later?)
    case CardFee(strict) => strict && r.Err?
    case _ => r.Err?
  }

  /** The failing answers after which no compensation can bring the order and its transaction together. */
  predicate Tears(steps: seq<Step>, before: State, step: Step, r: Reply) {
    && r.Err?
    && match step
       case InitOrder(undo) => r.applied && !(r.record && undo)
       case ProcessOrder => !r.record && (Creates(steps) || (r.applied && before.db != Some(Processing)))
       case InitTx => r.applied && !r.record
       case ConfirmTx(_) => !r.record
       case SucceedOrder(parks) => !r.record && (parks || !r.applied)
       case _ => false
  }

  /** Ending of a run whose first failing step is `step`, answered `r`. */
  function EndingAt(steps: seq<Step>, before: State, step: Step, r: Reply): Ending {
    if Tears(steps, before, step, r) then Torn
    else if r.Later? then Waiting
    else if !r.Err? then Refused
    else
      match step
      case Check => Untouched
      case InitOrder(_) => if r.applied then Refused else Untouched
      case ProcessOrder => if r.record then Refused else Untouched
      case ConfirmTx(_) => if CallsOut(steps) then Refused else Waiting
      case SucceedOrder(_) => if !r.record then Paid else if CallsOut(steps) then Refused else Waiting
      case _ => Refused
  }

  /** Position of the first failing step, |steps| if there is none. */
  function FirstFailure(steps: seq<Step>, a: Answers, i: nat): (k: nat)
    requires i <= |steps|
    ensures i <= k <= |steps|
    ensures k < |steps| ==> Fails(steps[k], a(k))
    decreases |steps| - i
  {
    if i == |steps| || Fails(steps[i], a(i)) then i else FirstFailure(steps, a, i + 1)
  }

  predicate Matches(e: Ending, before: State, s: State) {
    match e
    case Untouched => s.db == before.db && s.tx.None?
    case Paid => s.db == Some(Success) && s.tx == Some(TxFinish)
    case Waiting => s.db == Some(Verifying) && s.tx == Some(TxPending)
    case Refused => s.db == Some(Failed) && (s.tx.None? || s.tx == Some(TxFailed))
    case Torn => !Agree(before, s)
  }

  // ----- compensation chains

  predicate RefusedState(s: State) {
    && s.order == Some(Failed) && (s.db.None? || s.db == Some(Failed))
    && (s.trans.None? || (s.trans == Some(TxFailed) && (s.tx.None? || s.tx == Some(TxFailed))))
    && !s.pending
  }

  predicate ParkedState(s: State) {
    && s.order == Some(Verifying) && s.db == Some(Verifying)
    && (s.trans.None? || (s.trans == Some(TxPending) && s.tx == Some(TxPending)))
  }

  /** Calls made by compensations n-1, ..., 0 on a settled state. */
  function Rollback(steps: seq<Step>, n: nat, pending: bool): seq<Call>
    requires n <= |steps|
  {
    if n == 0 then []
    else RollbackOne(steps[n - 1], pending) + Rollback(steps, n - 1, pending)
  }

  function RollbackOne(step: Step, pending: bool): seq<Call> {
    if step.UseVoucher? then [VoucherReverse]
    else if step.External? && !pending then [TxCancel, PutFailed]
    else []
  }

  predicate VoucherBelow(steps: seq<Step>, n: nat)
    requires n <= |steps|
  {
    n > 0 && (steps[n - 1].UseVoucher? || VoucherBelow(steps, n - 1))
  }

  /** Below a step of rank 3 or less there is no voucher step; past it nothing adds one. */
  lemma {:induction false} NoVoucherBelow(steps: seq<Step>, n: nat, m: nat)
    requires Shaped(steps) && m <= n < |steps| && Rank(steps[n]) <= 3
    ensures !VoucherBelow(steps, m)
  {
    if m > 0 {
      RanksIncrease(steps, m - 1, n);
      NoVoucherBelow(steps, n, m - 1);
    }
  }

  lemma {:induction false} VoucherWhole(steps: seq<Step>, n: nat, m: nat)
    requires Shaped(steps) && n < m <= |steps| && Rank(steps[n]) >= 3
    ensures VoucherBelow(steps, m) == VoucherBelow(steps, n + 1)
  {
    if m > n + 1 {
      RanksIncrease(steps, n, m - 1);
      VoucherWhole(steps, n, m - 1);
    }
  }

  /** What one compensation makes of a settled state. */
  predicate Kept(step: Step, s: State, s1: State) {
    && (RefusedState(s) || ParkedState(s)) && !s.rejected
    && s1.pending == s.pending && s1.rejected == s.rejected
    && (s1.db.None? <==> s.db.None?) && (s1.tx.None? <==> s.tx.None?) && (s1.trans.None? <==> s.trans.None?)
    && s1.voucher == (s.voucher && !step.UseVoucher?)
    && (s.trans.None? ==> s1.tx == s.tx)
    && s1.calls == s.calls + RollbackOne(step, s.pending)
    && (if RefusedState(s) || (step.External? && !s.pending) then RefusedState(s1) else ParkedState(s1))
  }

  /** What compensations n-1, ..., 0 make of a settled state. */
  predicate RolledBack(steps: seq<Step>, n: nat, s: State, r: Result)
    requires n <= |steps|
  {
    && r.exit == Errored
    && (r.st.db.None? <==> s.db.None?) && (r.st.tx.None? <==> s.tx.None?)
    && r.st.voucher == (s.voucher && !VoucherBelow(steps, n))
    && (s.trans.None? ==> r.st.trans.None? && r.st.tx == s.tx) && (s.trans.Some? ==> r.st.trans.Some?)
    && r.st.calls == s.calls + Rollback(steps, n, s.pending)
    && (if RefusedState(s) || (!s.pending && CallsOutBelow(steps, n)) then RefusedState(r.st) else ParkedState(r.st))
  }

  lemma UndoSettled(step: Step, s: State)
    requires !step.ConfirmTx? && !step.SucceedOrder? && !step.EnterOtp?
    requires RefusedState(s) || ParkedState(s)
    requires !s.rejected
    requires step.External? ==> s.trans.Some?
    ensures Undo(step, s).Next? && Kept(step, s, Undo(step, s).st)
  {
    if step.External? && !s.pending {
      assert Undo(step, s).st.calls == s.calls + [TxCancel, PutFailed];
    }
  }

  lemma RollbackComposes(steps: seq<Step>, n: nat, s: State, s1: State, r: Result)
    requires 0 < n <= |steps|
    requires Kept(steps[n - 1], s, s1) && RolledBack(steps, n - 1, s1, r)
    ensures RolledBack(steps, n, s, r)
  {
    var one, rest := RollbackOne(steps[n - 1], s.pending), Rollback(steps, n - 1, s.pending);
    assert s.calls + one + rest == s.calls + (one + rest);
  }

  /** Below ConfirmTx, settled states stay settled, and a non-pending external step turns both kinds into a refusal. */
  lemma {:induction false} UnwindSettled(steps: seq<Step>, n: nat, s: State)
    requires n <= |steps|
    requires forall j | 0 <= j < n :: !steps[j].ConfirmTx? && !steps[j].SucceedOrder? && !steps[j].EnterOtp?
    requires RefusedState(s) || ParkedState(s)
    requires !s.rejected
    requires s.trans.None? ==> !CallsOutBelow(steps, n)
    ensures RolledBack(steps, n, s, Unwind(steps, n, s))
  {
    if n > 0 {
      UndoSettled(steps[n - 1], s);
      var s1 := Undo(steps[n - 1], s).st;
      UnwindSettled(steps, n - 1, s1);
      RollbackComposes(steps, n, s, s1, Unwind(steps, n - 1, s1));
    }
  }

  // ----- forward part

  function CallOf(step: Step): seq<Call> {
    match step
    case InitOrder(_) => [OrderCreate]
    case ProcessOrder => [PutProcessing]
    case UseVoucher(given, _) => if given then [VoucherUse] else []
    case InitTx => [TxInit]
    case External(applies, _) => if applies then [Delivery] else []
    case ConfirmTx(_) => [TxConfirm]
    case SucceedOrder(_) => [PutSuccess]
    case _ => []
  }

  /** Calls made by the forward functions of the first n steps. */
  function Trace(steps: seq<Step>, n: nat): seq<Call>
    requires n <= |steps|
  {
    if n == 0 then [] else Trace(steps, n - 1) + CallOf(steps[n - 1])
  }

  /** The state in which step i of a run started in s0 is reached when every earlier step returned no error. */
  predicate Before(steps: seq<Step>, i: nat, s0: State, s: State)
    requires i < |steps|
  {
    var rank := Rank(steps[i]);
    && !s.pending && !s.rejected && s.calls == Trace(steps, i)
    && s.voucher == (s0.voucher || GivenBelow(steps, i))
    && (if rank <= 4 then s.trans.None? && s.tx.None?
        else if rank <= 7 then s.trans == s.tx == Some(TxProcessing)
        else s.trans == s.tx == Some(TxFinish))
    && (if rank <= 1 then s.db == s0.db && (!Creates(steps) ==> s.order == s0.order)
        else if rank == 2 then
          && s.order.Some? && !Final(s.order.value) && s.db.Some? && !Final(s.db.value)
          && (!Creates(steps) ==> s.db == s0.db)
          && (Creates(steps) ==> s.db == Some(Pending))
        else s.order == s.db == Some(Processing))
  }

  lemma StartsBefore(steps: seq<Step>, s0: State)
    requires Shaped(steps) && Start(steps, s0)
    ensures Before(steps, 0, s0, s0)
  {
    WholeByRank(steps, 0, |steps|);
  }

  /** A step that does not fail leads to the state its successor is reached in. */
  lemma StepForward(steps: seq<Step>, i: nat, s0: State, s: State, r: Reply)
    requires Shaped(steps) && Start(steps, s0) && i + 1 < |steps|
    requires Before(steps, i, s0, s) && !Fails(steps[i], r)
    ensures Exec(steps[i], r, s).Next? && Before(steps, i + 1, s0, Exec(steps[i], r, s).st)
  {
    assert Follows(steps[i], steps[i + 1]);
    if Rank(steps[i]) <= 1 {
      BelowByRank(steps, i, i);
      WholeByRank(steps, i + 1, |steps|);
    }
  }

  /** A run either meets no failure and pays, or reaches its first failing step in the expected state. */
  lemma {:induction false} RunForward(steps: seq<Step>, a: Answers, i: nat, s0: State, s: State) returns (sk: State)
    requires Shaped(steps) && Start(steps, s0) && i < |steps| && Before(steps, i, s0, s)
    ensures
      var k := FirstFailure(steps, a, i);
      if k < |steps| then Before(steps, k, s0, sk) && Run(steps, a, i, s) == Run(steps, a, k, sk)
      else
        && Run(steps, a, i, s) == Result(Returned, sk)
        && sk.db == Some(Success) && sk.tx == Some(TxFinish)
        && sk.calls == Trace(steps, |steps|) && sk.voucher == (s0.voucher || VoucherGiven(steps))
    decreases |steps| - i
  {
    sk := s;
    if !Fails(steps[i], a(i)) {
      if i + 1 < |steps| {
        StepForward(steps, i, s0, s, a(i));
        sk := RunForward(steps, a, i + 1, s0, Exec(steps[i], a(i), s).st);
      } else {
        sk := Exec(steps[i], a(i), s).st;
      }
    }
  }

  // ----- the first failing step

  /** Does the run end in a nil dereference when `step` fails with answer r? */
  predicate Panics(steps: seq<Step>, step: Step, r: Reply) {
    && r.Err? && !r.record
    && match step
       case InitOrder(undo) => undo
       case ProcessOrder => true
       case ConfirmTx(nilSafe) => !nilSafe || CallsOut(steps)
       case SucceedOrder(_) => true
       case _ => false
  }

  /** Calls by which the compensations first react to the failure. */
  function Reaction(step: Step, r: Reply): seq<Call> {
    match step
    case InitOrder(undo) => if undo && r.Err? && r.record then [PutFailed] else []
    case ProcessOrder => if r.Err? && r.record then [PutFailed] else []
    case UseVoucher(_, _) => [VoucherReverse, PutFailed]
    case InitTx => if r.Err? && r.record then [TxCancel, PutFailed] else [PutFailed]
    case External(_, _) => if r.Later? then [TxUpdate, PutVerifying] else [TxCancel, PutFailed]
    case ConfirmTx(nilSafe) =>
      if r.Err? && r.record then [TxUpdate, PutVerifying] else if nilSafe then [PutVerifying] else []
    case SucceedOrder(parks) =>
      if r.Err? && r.record then (if parks then [TxUpdate, PutVerifying] else [PutVerifying, TxUpdate])
      else if parks then [TxUpdate] else []
    case CardFee(_) => [TxCancel, PutFailed]
    case _ => []
  }

  /** The compensations down to this position have settled the order and its transaction. */
  function Resume(step: Step, k: nat): nat {
    if k > 0 && (step.CardFee? || step.SucceedOrder? || (step.UseVoucher? && !step.closes)) then k - 1 else k
  }

  /** The result of a run whose first failing step is step k, answered r. */
  predicate FailedRun(steps: seq<Step>, k: nat, r: Reply, s0: State, res: Result)
    requires k < |steps|
  {
    var panics := Panics(steps, steps[k], r);
    && res.exit == (if panics then Panicked else Errored)
    && Matches(EndingAt(steps, s0, steps[k], r), s0, res.st)
    && (Rank(steps[k]) >= 7 && EndingAt(steps, s0, steps[k], r) == Torn ==> res.st.db != Some(Failed))
    && (res.st.tx.None? <==> Rank(steps[k]) <= 4 && !(steps[k].InitTx? && r.Err? && r.applied))
    && res.st.voucher == (if panics then s0.voucher || GivenBelow(steps, k)
      else s0.voucher && !VoucherBelow(steps, k + 1))
    && res.st.calls == Trace(steps, k + 1) + Reaction(steps[k], r) + 
       (if panics then [] else Rollback(steps, Resume(steps[k], k), r.Later?))
  }

  lemma FailCheck(steps: seq<Step>, k: nat, r: Reply, s0: State, s: State)
    requires Shaped(steps) && k < |steps| && steps[k].Check? && Before(steps, k, s0, s) && Fails(steps[k], r)
    ensures FailedRun(steps, k, r, s0, Unwind(steps, k + 1, Exec(steps[k], r, s).st))
  {
    PositionByRank(steps, k);
    OnlyChecksBelow(steps, 1, s);
  }

  lemma FailInitOrder(steps: seq<Step>, k: nat, r: Reply, s0: State, s: State)
    requires Shaped(steps) && Start(steps, s0) && k < |steps| && steps[k].InitOrder?
    requires Before(steps, k, s0, s) && Fails(steps[k], r)
    ensures FailedRun(steps, k, r, s0, Unwind(steps, k + 1, Exec(steps[k], r, s).st))
  {
    PositionByRank(steps, k);
    if k == 1 { RanksIncrease(steps, 0, 1); }
    CreatesHere(steps, k, |steps|);
    BelowByRank(steps, k, k);
    NoVoucherBelow(steps, k, k);
    var s1 := Exec(steps[k], r, s).st;
    var o := Undo(steps[k], s1);
    assert o.Crash? <==> Panics(steps, steps[k], r);
    assert o.st.calls == Trace(steps, k + 1) + Reaction(steps[k], r);
    if o.Next? {
      OnlyChecksBelow(steps, k, o.st);
      assert Unwind(steps, k + 1, s1) == Result(Errored, o.st);
    } else {
      assert Unwind(steps, k + 1, s1) == Result(Panicked, o.st);
    }
  }

  lemma OnlyChecksBelow(steps: seq<Step>, n: nat, s: State)
    requires n <= 1 && n <= |steps| && (n == 1 ==> steps[0].Check?)
    ensures Unwind(steps, n, s) == Result(Errored, s) && Rollback(steps, n, false) == []
  {
  }

  /** Nothing at or above ConfirmTx lies below a step of rank 7 or less; below InitTx there is no external step. */
  lemma BelowConfirm(steps: seq<Step>, n: nat)
    requires Shaped(steps) && n < |steps| && Rank(steps[n]) <= 7
    ensures forall j | 0 <= j < n :: !steps[j].ConfirmTx? && !steps[j].SucceedOrder? && !steps[j].EnterOtp?
    ensures Rank(steps[n]) <= 5 ==> !CallsOutBelow(steps, n)
    ensures Rank(steps[n]) <= 3 ==> !GivenBelow(steps, n)
  {
    forall j | 0 <= j < n ensures !steps[j].ConfirmTx? && !steps[j].SucceedOrder? && !steps[j].EnterOtp? {
      RanksIncrease(steps, j, n);
    }
    BelowByRank(steps, n, n);
  }

  /** A voucher that was used lies below n exactly if it was given there. */
  lemma {:induction false} GivenIsVoucher(steps: seq<Step>, n: nat)
    requires n <= |steps| && GivenBelow(steps, n)
    ensures VoucherBelow(steps, n)
  {
    if !steps[n - 1].UseVoucher? { GivenIsVoucher(steps, n - 1); }
  }

  /** State once the order and its transaction are settled, s being the state in which the failing step was reached. */
  predicate Settles(step: Step, r: Reply, s: State, s2: State) {
    && (if r.Later? || step.ConfirmTx? || step.SucceedOrder? then ParkedState(s2) else RefusedState(s2))
    && (ParkedState(s2) ==> s2.trans.Some?)
    && !s2.rejected && s2.pending == r.Later? && s2.db.Some?
    && s2.voucher == (s.voucher && !step.UseVoucher?)
    && s2.calls == s.calls + CallOf(step) + Reaction(step, r)
    && (s2.trans.None? ==> Rank(step) <= 4 && s2.tx == if step.InitTx? && r.Err? && r.applied then Some(TxProcessing)
      else None)
    && (s2.trans.None? && step.InitTx? ==> r.Err? && !r.record)
    && (s2.trans.Some? && step.InitTx? ==> r.Err? && r.record)
    && (s2.tx.None? <==> Rank(step) <= 4 && !(step.InitTx? && r.Err? && r.applied))
  }

  lemma Concludes(steps: seq<Step>, k: nat, r: Reply, s0: State, s: State, s1: State, s2: State)
    requires Shaped(steps) && k < |steps| && Rank(steps[k]) >= 2 && Before(steps, k, s0, s) && Fails(steps[k], r)
    requires Settles(steps[k], r, s, s2) && !Panics(steps, steps[k], r)
    requires steps[k].ConfirmTx? || steps[k].SucceedOrder? || steps[k].ProcessOrder? ==> r.Err? && r.record
    requires Unwind(steps, k + 1, s1) == Unwind(steps, Resume(steps[k], k), s2)
    ensures FailedRun(steps, k, r, s0, Unwind(steps, k + 1, s1))
  {
    var n := Resume(steps[k], k);
    if n < k { assert Follows(steps[n], steps[k]); }
    BelowConfirm(steps, n);
    UnwindSettled(steps, n, s2);
    if GivenBelow(steps, k) { GivenIsVoucher(steps, k); }
    assert VoucherBelow(steps, k) == VoucherBelow(steps, n);
    if Rank(steps[n]) >= 6 { WholeByRank(steps, n, |steps|); }
    assert steps[k].UseVoucher? ==> !GivenBelow(steps, n);
  }

  /** s is a state in which a step is reached. */
  predicate Reachable(s: State) {
    !s.pending && !s.rejected && s.order.Some? && !Final(s.order.value) && s.db.Some?
  }

  /** The failing step's own compensation settles everything. */
  predicate OwnUndo(step: Step, r: Reply, s: State) {
    var o := Undo(step, Exec(step, r, s).st);
    o.Next? && Settles(step, r, s, o.st)
  }

  lemma ProcessSettles(r: Reply, s: State)
    requires Reachable(s) && r.Err? && r.record && s.trans.None? && s.tx.None?
    ensures OwnUndo(ProcessOrder, r, s)
  {
  }

  lemma VoucherSettles(r: Reply, s: State)
    requires Reachable(s) && r.Err? && s.trans.None? && s.tx.None?
    ensures OwnUndo(UseVoucher(true, true), r, s)
  {
  }

  lemma InitSettles(r: Reply, s: State)
    requires Reachable(s) && r.Err? && s.trans.None? && s.tx.None?
    ensures OwnUndo(InitTx, r, s)
  {
  }

  lemma ExternalSettles(product: Product, r: Reply, s: State)
    requires Reachable(s) && (r.Err? || r.Later?) && s.trans == s.tx == Some(TxProcessing)
    ensures OwnUndo(External(true, product), r, s)
  {
  }

  lemma ConfirmSettles(nilSafe: bool, r: Reply, s: State)
    requires Reachable(s) && r.Err? && r.record && s.trans == s.tx == Some(TxProcessing)
    ensures OwnUndo(ConfirmTx(nilSafe), r, s)
  {
  }

  lemma OwnUndoSettles(step: Step, r: Reply, s: State)
    requires Fails(step, r) && Reachable(s)
    requires
      || (step.ProcessOrder? && r.record && s.trans.None? && s.tx.None?)
      || (step.UseVoucher? && step.closes && s.trans.None? && s.tx.None?)
      || (step.InitTx? && s.trans.None? && s.tx.None?)
      || ((step.External? || (step.ConfirmTx? && r.record)) && s.trans == s.tx == Some(TxProcessing))
    ensures OwnUndo(step, r, s)
  {
    match step {
      case ProcessOrder => ProcessSettles(r, s);
      case UseVoucher(_, _) => VoucherSettles(r, s);
      case InitTx => InitSettles(r, s);
      case External(_, product) => ExternalSettles(product, r, s);
      case ConfirmTx(nilSafe) => ConfirmSettles(nilSafe, r, s);
    }
  }

  lemma FailSettledByOwnUndo(steps: seq<Step>, k: nat, r: Reply, s0: State, s: State)
    requires Shaped(steps) && k < |steps| && Before(steps, k, s0, s) && Fails(steps[k], r)
    requires
      || steps[k].InitTx? || steps[k].External? || (steps[k].UseVoucher? && steps[k].closes)
      || ((steps[k].ProcessOrder? || steps[k].ConfirmTx?) && r.record)
    ensures FailedRun(steps, k, r, s0, Unwind(steps, k + 1, Exec(steps[k], r, s).st))
  {
    var s1 := Exec(steps[k], r, s).st;
    OwnUndoSettles(steps[k], r, s);
    Concludes(steps, k, r, s0, s, s1, Undo(steps[k], s1).st);
  }

  /** The failing step's compensation and the one below it settle everything. */
  lemma VoucherThenProcessSettle(given: bool, r: Reply, s: State)
    requires r.Err? && given && !s.pending && !s.rejected && s.order == s.db == Some(Processing) && s.trans.None?
    requires s.tx.None?
    ensures
      var o := Undo(UseVoucher(given, false), Exec(UseVoucher(given, false), r, s).st);
      o.Next? && Undo(ProcessOrder, o.st).Next? && Settles(UseVoucher(given, false), r, s, Undo(ProcessOrder, o.st).st)
  {
  }

  lemma FeeThenExternalSettle(applies: bool, product: Product, r: Reply, s: State)
    requires r.Err? && !s.pending && !s.rejected && s.order == s.db == Some(Processing)
    requires s.trans == s.tx == Some(TxProcessing)
    ensures
      var o := Undo(CardFee(true), Exec(CardFee(true), r, s).st);
      && o.Next? && Undo(External(applies, product), o.st).Next?
      && Settles(CardFee(true), r, s, Undo(External(applies, product), o.st).st)
  {
  }

  lemma SucceedThenConfirmSettle(parks: bool, nilSafe: bool, r: Reply, s: State)
    requires r.Err? && r.record && !s.pending && !s.rejected
    requires s.order == s.db == Some(Processing) && s.trans == s.tx == Some(TxFinish)
    ensures
      var o := Undo(SucceedOrder(parks), Exec(SucceedOrder(parks), r, s).st);
      o.Next? && Undo(ConfirmTx(nilSafe), o.st).Next?
        && Settles(SucceedOrder(parks), r, s, Undo(ConfirmTx(nilSafe), o.st).st)
  {
  }

  lemma FailSettledByTwoUndos(steps: seq<Step>, k: nat, r: Reply, s0: State, s: State)
    requires Shaped(steps) && k < |steps| && Before(steps, k, s0, s) && Fails(steps[k], r)
    requires
      || steps[k].CardFee? || (steps[k].UseVoucher? && !steps[k].closes)
      || (steps[k].SucceedOrder? && r.record)
    ensures FailedRun(steps, k, r, s0, Unwind(steps, k + 1, Exec(steps[k], r, s).st))
  {
    var s1 := Exec(steps[k], r, s).st;
    assert Follows(steps[k - 1], steps[k]);
    TwoUndosSettle(steps[k], steps[k - 1], r, s);
    UnwindTwice(steps, k, s1);
    Concludes(steps, k, r, s0, s, s1, Undo(steps[k - 1], Undo(steps[k], s1).st).st);
  }

  lemma UnwindTwice(steps: seq<Step>, k: nat, s: State)
    requires 0 < k < |steps| && Undo(steps[k], s).Next? && Undo(steps[k - 1], Undo(steps[k], s).st).Next?
    ensures Unwind(steps, k + 1, s) == Unwind(steps, k - 1, Undo(steps[k - 1], Undo(steps[k], s).st).st)
  {
    assert Unwind(steps, k + 1, s) == Unwind(steps, k, Undo(steps[k], s).st);
  }

  lemma TwoUndosSettle(step: Step, below: Step, r: Reply, s: State)
    requires Fails(step, r) && r.Err? && !s.pending && !s.rejected && s.order == s.db == Some(Processing)
    requires
      || (step.UseVoucher? && !step.closes && below.ProcessOrder? && s.trans.None? && s.tx.None?)
      || (step.CardFee? && below.External? && s.trans == s.tx == Some(TxProcessing))
      || (step.SucceedOrder? && r.record && below.ConfirmTx? && s.trans == s.tx == Some(TxFinish))
    ensures
      var o := Undo(step, Exec(step, r, s).st);
      o.Next? && Undo(below, o.st).Next? && Settles(step, r, s, Undo(below, o.st).st)
  {
    match step {
      case UseVoucher(given, _) => VoucherThenProcessSettle(given, r, s);
      case CardFee(_) => FeeThenExternalSettle(below.applies, below.product, r, s);
      case SucceedOrder(parks) => SucceedThenConfirmSettle(parks, below.nilSafe, r, s);
    }
  }

  lemma NilOrderCrashes(step: Step, r: Reply, s: State)
    requires (step.ProcessOrder? || step.SucceedOrder?) && r.Err? && !r.record
    requires s.order.Some? && s.db.Some? && (step.SucceedOrder? ==> s.trans == s.tx == Some(TxFinish))
    ensures
      var o := Undo(step, Exec(step, r, s).st);
      && o.Crash? && o.st.voucher == s.voucher
      && o.st.calls == s.calls + CallOf(step) + Reaction(step, r)
      && o.st.db == (if !r.applied then s.db else if step.ProcessOrder? then Some(Processing) else Some(Success))
      && o.st.tx == (if step.SucceedOrder? && step.parks then Some(TxPending) else s.tx)
  {
  }

  /** A nil record at ProcessOrder or SucceedOrder is dereferenced by that step's own compensation. */
  lemma FailNilOrder(steps: seq<Step>, k: nat, r: Reply, s0: State, s: State)
    requires Shaped(steps) && Start(steps, s0) && k < |steps| && Before(steps, k, s0, s) && Fails(steps[k], r)
    requires (steps[k].ProcessOrder? || steps[k].SucceedOrder?) && !r.record
    ensures FailedRun(steps, k, r, s0, Unwind(steps, k + 1, Exec(steps[k], r, s).st))
  {
    var s1 := Exec(steps[k], r, s).st;
    NilOrderCrashes(steps[k], r, s);
    assert Unwind(steps, k + 1, s1) == Result(Panicked, Undo(steps[k], s1).st);
  }

  lemma NilTransParks(nilSafe: bool, r: Reply, s: State)
    requires r.Err? && !r.record && s.order == s.db == Some(Processing) && s.trans == s.tx == Some(TxProcessing)
    ensures
      var o := Undo(ConfirmTx(nilSafe), Exec(ConfirmTx(nilSafe), r, s).st);
      && (if nilSafe then o.Next? && ParkedState(o.st) else o.Crash? && o.st.db == s.db)
      && o.st.trans.None? && (o.st.tx == Some(TxProcessing) || o.st.tx == Some(TxFinish))
      && o.st.voucher == s.voucher && o.st.pending == s.pending && o.st.rejected == s.rejected
      && o.st.calls == s.calls + [TxConfirm] + Reaction(ConfirmTx(nilSafe), r)
  {
  }

  /** A nil transaction at ConfirmTx parks the order at best; an external step below then dereferences it. */
  lemma FailNilTrans(steps: seq<Step>, k: nat, r: Reply, s0: State, s: State)
    requires Shaped(steps) && k < |steps| && Before(steps, k, s0, s) && Fails(steps[k], r)
    requires steps[k].ConfirmTx? && !r.record
    ensures FailedRun(steps, k, r, s0, Unwind(steps, k + 1, Exec(steps[k], r, s).st))
  {
    var s1 := Exec(steps[k], r, s).st;
    var o := Undo(steps[k], s1);
    NilTransParks(steps[k].nilSafe, r, s);
    if o.Crash? {
      assert Unwind(steps, k + 1, s1) == Result(Panicked, o.st);
    } else {
      assert Unwind(steps, k + 1, s1) == Unwind(steps, k, o.st);
      WholeByRank(steps, k, |steps|);
      if CallsOutBelow(steps, k) {
        NilTransReachesExternal(steps, k, o.st);
      } else {
        BelowConfirm(steps, k);
        UnwindSettled(steps, k, o.st);
        if GivenBelow(steps, k) { GivenIsVoucher(steps, k); }
      }
    }
  }

  lemma NilTransReachesExternal(steps: seq<Step>, k: nat, s: State)
    requires Shaped(steps) && k < |steps| && steps[k].ConfirmTx? && CallsOutBelow(steps, k)
    requires s.trans.None? && !s.pending
    ensures Unwind(steps, k, s) == Result(Panicked, s)
  {
    assert Follows(steps[k - 1], steps[k]);
    if steps[k - 1].CardFee? {
      assert Follows(steps[k - 2], steps[k - 1]);
      assert Unwind(steps, k, s) == Unwind(steps, k - 1, s);
    } else if !steps[k - 1].External? {
      BelowByRank(steps, k - 1, k - 1);
    }
  }

  // ----- theorems

  /** How the first failing step and its answer decide the whole result: statuses, exit, voucher and every call made. */
  lemma RunOutcome(steps: seq<Step>, a: Answers, s0: State)
    requires Shaped(steps) && Start(steps, s0)
    ensures
      var r := Run(steps, a, 0, s0);
      var k := FirstFailure(steps, a, 0);
      if k < |steps| then FailedRun(steps, k, a(k), s0, r)
      else
        && r.exit == Returned && Matches(Paid, s0, r.st)
        && r.st.calls == Trace(steps, |steps|) && r.st.voucher == (s0.voucher || VoucherGiven(steps))
  {
    StartsBefore(steps, s0);
    var s := RunForward(steps, a, 0, s0, s0);
    var k := FirstFailure(steps, a, 0);
    if k < |steps| {
      FailureOutcome(steps, k, a(k), s0, s);
      assert Exec(steps[k], a(k), s).Fail?;
    }
  }

  lemma FailureOutcome(steps: seq<Step>, k: nat, r: Reply, s0: State, s: State)
    requires Shaped(steps) && Start(steps, s0) && k < |steps| && Before(steps, k, s0, s) && Fails(steps[k], r)
    ensures FailedRun(steps, k, r, s0, Unwind(steps, k + 1, Exec(steps[k], r, s).st))
  {
    PositionByRank(steps, k);
    match steps[k] {
      case Check => FailCheck(steps, k, r, s0, s);
      case InitOrder(_) => FailInitOrder(steps, k, r, s0, s);
      case UseVoucher(_, closes) =>
        if closes { FailSettledByOwnUndo(steps, k, r, s0, s); } else { FailSettledByTwoUndos(steps, k, r, s0, s); }
      case CardFee(_) => FailSettledByTwoUndos(steps, k, r, s0, s);
      case ProcessOrder =>
        if r.record { FailSettledByOwnUndo(steps, k, r, s0, s); } else { FailNilOrder(steps, k, r, s0, s); }
      case ConfirmTx(_) =>
        if r.record { FailSettledByOwnUndo(steps, k, r, s0, s); } else { FailNilTrans(steps, k, r, s0, s); }
      case SucceedOrder(_) =>
        if r.record { FailSettledByTwoUndos(steps, k, r, s0, s); } else { FailNilOrder(steps, k, r, s0, s); }
      case _ => FailSettledByOwnUndo(steps, k, r, s0, s);
    }
  }
}
