/** What is asked of providers and banks: every Delivery, its product, and the calls of a run that meets no failure. */
module Products {
  import opened Statuses
  import opened Steps
  import opened Sagas
  import opened Settlement
  import opened Guarantees
  import opened Gated

  // ----- any run

  function Offered(steps: seq<Step>): set<Product> { set step | step in steps && Asks(step) :: step.product }

  /** s1 has made the deliveries of s and then some, each for a product that one of the steps asks for. */
  predicate Asked(steps: seq<Step>, s: State, s1: State) {
    && s.products <= s1.products
    && |s1.products| - |s.products| == Tally(s1.calls, Delivery) - Tally(s.calls, Delivery)
    && forall i | |s.products| <= i < |s1.products| :: s1.products[i] in Offered(steps)
  }

  lemma ExecAsks(steps: seq<Step>, step: Step, r: Reply, s: State)
    requires step in steps
    ensures Asked(steps, s, Exec(step, r, s).st)
  {
    if Asks(step) {
      assert Exec(step, r, s).st.calls == s.calls + [Delivery];
      TallyAppend(s.calls, [Delivery], Delivery);
      TallyOfShort([Delivery], Delivery);
    } else {
      ExecKeepsProducts(step, r, s);
      ExecCommits(step, r, s);
      SameTally(s.calls, Exec(step, r, s).st.calls, Delivery);
    }
  }

  lemma ExecKeepsProducts(step: Step, r: Reply, s: State)
    requires !Asks(step)
    ensures Exec(step, r, s).st.products == s.products
  {
    match step {
      case ProcessOrder => WriteFrame(s, Processing, PutProcessing, r);
      case SucceedOrder(_) => WriteFrame(s, Success, PutSuccess, r);
      case RejectBankFailure(accepted) => RejectFrame(accepted, r, s);
      case _ =>
    }
  }

  lemma ParkKeepsProducts(s: State, nilSafe: bool)
    ensures ParkBoth(s, nilSafe).st.products == s.products
  {
  }

  lemma FailKeepsProducts(s: State)
    ensures FailIfOpen(s).st.products == s.products
  {
  }

  lemma OtpKeepsProducts(s: State)
    ensures UndoOtp(s).st.products == s.products
  {
  }

  lemma UndoKeepsProducts(step: Step, s: State)
    ensures Undo(step, s).st.products == s.products
  {
    match RepairOf(step) {
      case Park(nilSafe) => ParkKeepsProducts(s, nilSafe);
      case SettleExternal => ParkKeepsProducts(s, false);
      case SettleOtp => OtpKeepsProducts(s);
      case CancelGuarded => FailKeepsProducts(CancelIfOpen(s));
      case FailGuarded => FailKeepsProducts(s);
      case Reverse(_) => FailKeepsProducts(Log(s.(voucher := false), VoucherReverse));
      case ParkOrderOnly =>
      case Nothing =>
    }
  }

  lemma {:induction false} UnwindAsks(steps: seq<Step>, n: nat, s: State)
    requires n <= |steps|
    ensures Unwind(steps, n, s).st.products == s.products
  {
    if n > 0 {
      UndoKeepsProducts(steps[n - 1], s);
      if Undo(steps[n - 1], s).Next? { UnwindAsks(steps, n - 1, Undo(steps[n - 1], s).st); }
    }
  }

  /** Every run asks for exactly as many products as it makes deliveries, and for none that no step of it stands for. */
  lemma {:induction false} RunAsks(steps: seq<Step>, a: Answers, i: nat, s: State)
    requires i <= |steps|
    ensures Asked(steps, s, Run(steps, a, i, s).st)
    decreases |steps| - i
  {
    if i < |steps| {
      var o := Exec(steps[i], a(i), s);
      ExecAsks(steps, steps[i], a(i), s);
      OneStep(steps, a, i, s);
      if o.Next? { RunAsks(steps, a, i + 1, o.st); }
      if o.Fail? {
        UnwindAsks(steps, i + 1, o.st);
        UnwindOnlyRepairs(steps, i + 1, o.st);
        SameTally(o.st.calls, Unwind(steps, i + 1, o.st).st.calls, Delivery);
      }
    }
  }

  // ----- sagas of the shape

  predicate AsksBelow(steps: seq<Step>, n: nat)
    requires n <= |steps|
  {
    exists i | 0 <= i < n :: Asks(steps[i])
  }

  lemma {:induction false} TraceDeliveries(steps: seq<Step>, n: nat)
    requires Shaped(steps) && n <= |steps|
    ensures Tally(Trace(steps, n), Delivery) == if AsksBelow(steps, n) then 1 else 0
  {
    if n > 0 {
      TraceDeliveries(steps, n - 1);
      TallyOfShort(CallOf(steps[n - 1]), Delivery);
      TallyAppend(Trace(steps, n - 1), CallOf(steps[n - 1]), Delivery);
      if Asks(steps[n - 1]) {
        forall i | 0 <= i < n - 1 ensures !Asks(steps[i]) { RanksIncrease(steps, i, n - 1); }
      }
    } else {
      TallyOfShort([], Delivery);
    }
  }

  /** A run of the shape makes one delivery if it comes to a step that asks, and none otherwise. */
  lemma ShapedDeliveries(steps: seq<Step>, a: Answers, s0: State)
    requires Shaped(steps) && Start(steps, s0)
    ensures
      var k := FirstFailure(steps, a, 0);
      var n := if k < |steps| then k + 1 else k;
      Tally(Run(steps, a, 0, s0).st.calls, Delivery) == if AsksBelow(steps, n) then 1 else 0
  {
    RunOutcome(steps, a, s0);
    var k := FirstFailure(steps, a, 0);
    if k < |steps| { FailedDeliveries(steps, k, a(k), s0, Run(steps, a, 0, s0)); } else { TraceDeliveries(steps, k); }
  }

  lemma FailedDeliveries(steps: seq<Step>, k: nat, r: Reply, s0: State, res: Result)
    requires Shaped(steps) && k < |steps| && FailedRun(steps, k, r, s0, res)
    ensures Tally(res.st.calls, Delivery) == if AsksBelow(steps, k + 1) then 1 else 0
  {
    var n := Resume(steps[k], k);
    var tail := if res.exit == Panicked then [] else Rollback(steps, n, r.Later?);
    TraceDeliveries(steps, k + 1);
    ReactionDeliversNothing(steps[k], r);
    TallyAppend(Trace(steps, k + 1), Reaction(steps[k], r), Delivery);
    TallyAppend(Trace(steps, k + 1) + Reaction(steps[k], r), tail, Delivery);
    RollbackCount(steps, n, r.Later?, Delivery);
    TallyOfShort([], Delivery);
  }

  lemma ReactionDeliversNothing(step: Step, r: Reply)
    ensures Tally(Reaction(step, r), Delivery) == 0
  {
    TallyOfShort(Reaction(step, r), Delivery);
  }

  // ----- the sagas by name

  /** The saga's steps ask for exactly its product. */
  predicate OffersOnly(steps: seq<Step>, products: seq<Product>) {
    && (forall step | step in steps && Asks(step) :: products == [step.product])
    && (products != [] ==> exists step :: step in steps && Asks(step))
  }

  lemma AskIsOnlyAsk(before: seq<Step>, ask: seq<Step>, after: seq<Step>, products: seq<Product>)
    requires forall step | step in before + after :: !Asks(step)
    requires OffersOnly(ask, products)
    ensures OffersOnly(before + ask + after, products)
  {
    if step :| step in ask && Asks(step) { assert step in before + ask + after; }
  }

  lemma NamedOffer(saga: Saga)
    ensures OffersOnly(StepsOf(saga), ProductsOf(saga))
  {
    var before := CheckPart(saga) + CreatePart(saga) + [ProcessOrder] + VoucherPart(saga) + [InitTx];
    var after := FeePart(saga) + [ConfirmTx(NilSafe(saga))] + [SucceedOrder(!saga.TransferGpayWalletSaga?)];
    AskPartOffers(saga);
    AskIsOnlyAsk(before, AskPart(saga), after, ProductsOf(saga));
    assert before + AskPart(saga) + after == Table(saga);
    StepsByName(saga);
  }

  lemma AskPartOffers(saga: Saga)
    ensures OffersOnly(AskPart(saga), ProductsOf(saga))
  {
    if ProductsOf(saga) != [] { assert Asks(AskPart(saga)[0]) && AskPart(saga)[0] in AskPart(saga); }
  }

  /**
   By name: a run asks for its saga's product at most once and for nothing else, and by the time ConfirmTransaction is
   attempted it has asked for it.
   */
  lemma NamedDelivery(saga: Saga, a: Answers, s0: State)
    requires Start(StepsOf(saga), s0)
    ensures
      var st := Run(StepsOf(saga), a, 0, s0).st;
      && (st.products == [] || st.products == ProductsOf(saga))
      && |st.products| == Tally(st.calls, Delivery)
      && (Tally(st.calls, TxConfirm) > 0 ==> st.products == ProductsOf(saga))
  {
    var steps := StepsOf(saga);
    var st := Run(steps, a, 0, s0).st;
    EverySagaShaped(saga);
    NamedOffer(saga);
    RunAsks(steps, a, 0, s0);
    ShapedDeliveries(steps, a, s0);
    TallyOfShort([], Delivery);
    if st.products != [] { assert st.products[0] in Offered(steps); }
    if Tally(st.calls, TxConfirm) > 0 { ConfirmedAfterAll(steps, a, s0); }
  }

  /** The confirmation comes after every step that asks. */
  lemma ConfirmedAfterAll(steps: seq<Step>, a: Answers, s0: State)
    requires Shaped(steps) && Start(steps, s0) && Tally(Run(steps, a, 0, s0).st.calls, TxConfirm) > 0
    ensures
      var k := FirstFailure(steps, a, 0);
      forall step | step in steps && Asks(step) :: AsksBelow(steps, if k < |steps| then k + 1 else k)
  {
    var k := FirstFailure(steps, a, 0);
    RunOutcome(steps, a, s0);
    if k < |steps| {
      if Rank(steps[k]) < 7 { NoConfirmYet(steps, k, a(k), s0, Run(steps, a, 0, s0)); }
      forall step | step in steps && Asks(step) ensures AsksBelow(steps, k + 1) {
        var i :| 0 <= i < |steps| && steps[i] == step;
        if k < i { RanksIncrease(steps, k, i); }
      }
    }
  }

  /** The calls of a run that meets no failure, by name. */
  function HappyCalls(saga: Saga): seq<Call> {
    (if OnExistingOrder(saga) then [] else [OrderCreate]) + [PutProcessing] +
    (if TakesVoucher(saga) then [VoucherUse] else []) + [TxInit] +
    (if ProductsOf(saga) != [] then [Delivery] else []) + [TxConfirm] + [PutSuccess]
  }

  lemma {:induction false} TracePrefix(s: seq<Step>, t: seq<Step>, n: nat)
    requires n <= |s|
    ensures Trace(s + t, n) == Trace(s, n)
  {
    if n > 0 { TracePrefix(s, t, n - 1); }
  }

  lemma TraceOne(s: seq<Step>, t: seq<Step>)
    requires |t| <= 1
    ensures Trace(s + t, |s + t|) == Trace(s, |s|) + if t == [] then [] else CallOf(t[0])
  {
    if t == [] {
      assert s + t == s;
    } else {
      TracePrefix(s, t, |s|);
      assert (s + t)[|s|] == t[0];
    }
  }

  lemma HappyTrace(saga: Saga)
    ensures Trace(Table(saga), |Table(saga)|) == HappyCalls(saga)
  {
    CallsOfParts(saga);
    PartsTrace(CheckPart(saga), CreatePart(saga), VoucherPart(saga), AskPart(saga), FeePart(saga), NilSafe(saga),
      !saga.TransferGpayWalletSaga?);
  }

  lemma PartsTrace(check: seq<Step>, create: seq<Step>, voucher: seq<Step>, ask: seq<Step>, fee: seq<Step>,
      nilSafe: bool, parks: bool)
    requires |check| <= 1 && |create| <= 1 && |voucher| <= 1 && |ask| <= 1 && |fee| <= 1
    requires CallsOf(check) == CallsOf(fee) == []
    ensures
      var all :=
        check + create + [ProcessOrder] + voucher + [InitTx] + ask + fee + [ConfirmTx(nilSafe)] + [SucceedOrder(parks)];
      Trace(all, |all|) ==
        CallsOf(create) + [PutProcessing] + CallsOf(voucher) + [TxInit] + CallsOf(ask) + [TxConfirm] + [PutSuccess]
  {
    HappyHead(check, create, voucher);
    HappyTail(check + create + [ProcessOrder] + voucher, ask, fee, nilSafe, parks);
  }

  function CallsOf(t: seq<Step>): seq<Call>
    requires |t| <= 1
  {
    if t == [] then [] else CallOf(t[0])
  }

  lemma CallsOfParts(saga: Saga)
    ensures CallsOf(CheckPart(saga)) == CallsOf(FeePart(saga)) == []
    ensures CallsOf(CreatePart(saga)) == if OnExistingOrder(saga) then [] else [OrderCreate]
    ensures CallsOf(VoucherPart(saga)) == if TakesVoucher(saga) then [VoucherUse] else []
    ensures CallsOf(AskPart(saga)) == if ProductsOf(saga) != [] then [Delivery] else []
  {
  }

  lemma HappyHead(check: seq<Step>, create: seq<Step>, voucher: seq<Step>)
    requires |check| <= 1 && |create| <= 1 && |voucher| <= 1 && CallsOf(check) == []
    ensures
      var head := check + create + [ProcessOrder] + voucher;
      Trace(head, |head|) == CallsOf(create) + [PutProcessing] + CallsOf(voucher)
  {
    var first := check + create;
    CheckAndCreate(check, create);
    TraceOne(first, [ProcessOrder]);
    TraceOne(first + [ProcessOrder], voucher);
  }

  lemma CheckAndCreate(check: seq<Step>, create: seq<Step>)
    requires |check| <= 1 && |create| <= 1 && CallsOf(check) == []
    ensures Trace(check + create, |check + create|) == CallsOf(create)
  {
    if check != [] { assert Trace(check, 1) == Trace(check, 0) + CallOf(check[0]); }
    TraceOne(check, create);
  }

  lemma HappyTail(head: seq<Step>, ask: seq<Step>, fee: seq<Step>, nilSafe: bool, parks: bool)
    requires |ask| <= 1 && |fee| <= 1 && CallsOf(fee) == []
    ensures
      var all := head + [InitTx] + ask + fee + [ConfirmTx(nilSafe)] + [SucceedOrder(parks)];
      Trace(all, |all|) == Trace(head, |head|) + [TxInit] + CallsOf(ask) + [TxConfirm] + [PutSuccess]
  {
    TraceOne(head, [InitTx]);
    TraceOne(head + [InitTx], ask);
    TraceOne(head + [InitTx] + ask, fee);
    TraceOne(head + [InitTx] + ask + fee, [ConfirmTx(nilSafe)]);
    TraceOne(head + [InitTx] + ask + fee + [ConfirmTx(nilSafe)], [SucceedOrder(parks)]);
  }

  /** A run that meets no failure makes exactly these calls, in this order. */
  lemma NamedSuccess(saga: Saga, a: Answers, s0: State)
    requires Start(StepsOf(saga), s0)
    ensures
      var r := Run(StepsOf(saga), a, 0, s0);
      r.exit == Returned ==>
        && r.st.db == Some(Success) && r.st.tx == Some(TxFinish)
        && r.st.calls == HappyCalls(saga) && r.st.products == ProductsOf(saga)
  {
    EverySagaShaped(saga);
    RunOutcome(StepsOf(saga), a, s0);
    HappyTrace(saga);
    StepsByName(saga);
    NamedDelivery(saga, a, s0);
    if Run(StepsOf(saga), a, 0, s0).exit == Returned { HappyConfirms(saga); }
  }

  lemma HappyConfirms(saga: Saga)
    ensures Tally(HappyCalls(saga), TxConfirm) > 0
  {
    var calls := HappyCalls(saga);
    assert calls[|calls| - 2] == TxConfirm && calls[..|calls|] == calls;
    TallyPositive(calls, |calls|, TxConfirm);
  }
}
