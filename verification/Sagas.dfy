/** The orchestrators as step lists, and the shape that those creating a transaction share. */
module Sagas {
  import opened Statuses
  import opened Steps

  // provider family; `atm`: paid from a linked bank, on an order that already exists
  function BuyCard(atm: bool, voucher: bool): seq<Step> {
    (if atm then [] else [InitOrder(true)]) +
    [ProcessOrder, UseVoucher(voucher, true), InitTx, External(true, CardSale), CardFee(true), ConfirmTx(false),
      SucceedOrder(true)]
  }

  function TopUp(voucher: bool): seq<Step> {
    [InitOrder(true), ProcessOrder, UseVoucher(voucher, true), InitTx, External(true, Airtime), ConfirmTx(true),
      SucceedOrder(true)]
  }

  function PayBill(atm: bool, voucher: bool): seq<Step> {
    [Check] + (if atm then [] else [InitOrder(true)]) +
    [ProcessOrder, UseVoucher(voucher, true), InitTx, External(true, BillPayment), ConfirmTx(false), SucceedOrder(true)]
  }

  // bank family
  function CashOut(): seq<Step> {
    [Check, InitOrder(true), ProcessOrder, InitTx, External(true, BankTransfer), ConfirmTx(false), SucceedOrder(true)]
  }

  function IbftTransfer(voucher: bool): seq<Step> {
    [InitOrder(true), ProcessOrder, UseVoucher(voucher, true), InitTx, External(true, BankTransfer), ConfirmTx(false),
      SucceedOrder(true)]
  }

  function FundWal2Bank(): seq<Step> {
    [InitOrder(true), ProcessOrder, InitTx, External(true, BankTransfer), ConfirmTx(false), SucceedOrder(true)]
  }

  // internal family
  function StaticQr(voucher: bool): seq<Step> {
    [InitOrder(true), ProcessOrder, UseVoucher(voucher, true), InitTx, ConfirmTx(true), SucceedOrder(true)]
  }

  function FundWal2Wal(voucher: bool): seq<Step> {
    [InitOrder(true), ProcessOrder, UseVoucher(voucher, true), InitTx, ConfirmTx(false), SucceedOrder(true)]
  }

  function TransferGpayWallet(): seq<Step> {
    [InitOrder(false), ProcessOrder, InitTx, ConfirmTx(false), SucceedOrder(false)]
  }

  /** DepositMerchant and WithdrawMerchant. */
  function MerchantCash(): seq<Step> {
    [InitOrder(true), ProcessOrder, InitTx, ConfirmTx(true), SucceedOrder(true)]
  }

  function UpdateBalanceVa(): seq<Step> {
    [InitOrder(true), ProcessOrder, InitTx, ConfirmTx(false), SucceedOrder(true)]
  }

  function LixiPayout(): seq<Step> {
    [InitOrder(false), ProcessOrder, InitTx, ConfirmTx(false), SucceedOrder(true)]
  }

  // on an existing order
  function ConfirmOrder(voucher: bool, openWallet: bool): seq<Step> {
    [ProcessOrder, UseVoucher(voucher, false), InitTx, External(openWallet, WalletFunding), ConfirmTx(true),
      SucceedOrder(true)]
  }

  /** BuyCardWithToken when an OTP is given. */
  function BuyCardWithOtp(voucher: bool): seq<Step> {
    [FindOrder, FindTx(false), UseVoucher(voucher, false), EnterOtp, External(true, CardSale), CardFee(true),
      ConfirmTx(false), SucceedOrder(true)]
  }

  function VerifyOtp(): seq<Step> {
    [FindOrder, FindTx(false), EnterOtp, ConfirmTx(false), SucceedOrder(true)]
  }

  function ConfirmCredit(): seq<Step> {
    [ConfirmTx(true), SucceedOrder(true)]
  }

  // ----- shape

  function Rank(step: Step): nat {
    match step
    case Check => 0
    case InitOrder(_) => 1
    case ProcessOrder => 2
    case UseVoucher(_, _) => 3
    case InitTx => 4
    case External(_, _) => 5
    case CardFee(_) => 6
    case ConfirmTx(_) => 7
    case SucceedOrder(_) => 8
    case _ => 9
  }

  /** The next step that no saga of the shape leaves out. */
  function Must(rank: nat): nat {
    if rank < 2 then 2 else if rank < 4 then 4 else if rank < 7 then 7 else 8
  }

  /** `next` may come right after `step`: ranks increase, and no indispensable step is jumped over. */
  predicate Follows(step: Step, next: Step) {
    && Rank(step) < Rank(next) <= Must(Rank(step))
    && (next.CardFee? ==> step.External?)
  }

  /**
   ProcessOrder, InitTx, ConfirmTx and SucceedOrder are all there, in this order, and the other steps in their places.
   */
  predicate Shaped(steps: seq<Step>) {
    && steps != []
    && Rank(steps[0]) <= 2
    && steps[|steps| - 1].SucceedOrder?
    && forall i | 0 <= i < |steps| - 1 :: Follows(steps[i], steps[i + 1])
  }

  predicate CreatesBelow(steps: seq<Step>, n: nat)
    requires n <= |steps|
  {
    n > 0 && (steps[n - 1].InitOrder? || CreatesBelow(steps, n - 1))
  }

  predicate CallsOutBelow(steps: seq<Step>, n: nat)
    requires n <= |steps|
  {
    n > 0 && (steps[n - 1].External? || CallsOutBelow(steps, n - 1))
  }

  predicate GivenBelow(steps: seq<Step>, n: nat)
    requires n <= |steps|
  {
    n > 0 && ((steps[n - 1].UseVoucher? && steps[n - 1].given) || GivenBelow(steps, n - 1))
  }

  predicate Creates(steps: seq<Step>) { CreatesBelow(steps, |steps|) }

  predicate CallsOut(steps: seq<Step>) { CallsOutBelow(steps, |steps|) }

  predicate VoucherGiven(steps: seq<Step>) { GivenBelow(steps, |steps|) }

  /** State when the coordinator starts: no transaction yet, and an order exactly if the saga does not create one. */
  predicate Start(steps: seq<Step>, s: State) {
    && s.trans.None? && s.tx.None? && !s.pending && !s.rejected && s.calls == [] && s.products == []
    && (Creates(steps) ==> s.db.None?)
    && (!Creates(steps) ==> s.order.Some? && !Final(s.order.value) && s.db.Some? && !Final(s.db.value))
  }

  lemma {:induction false} RanksIncrease(steps: seq<Step>, i: nat, j: nat)
    requires Shaped(steps) && i < j < |steps|
    ensures Rank(steps[i]) < Rank(steps[j])
  {
    assert Follows(steps[j - 1], steps[j]);
    if i < j - 1 {
      RanksIncrease(steps, i, j - 1);
    }
  }

  lemma {:induction false} PositionByRank(steps: seq<Step>, i: nat)
    requires Shaped(steps) && i < |steps|
    ensures i <= Rank(steps[i]) <= 8
  {
    if i > 0 {
      PositionByRank(steps, i - 1);
      assert Follows(steps[i - 1], steps[i]);
    }
  }

  /** Which kinds of step lie below position n, read off the rank of the step at n. */
  lemma {:induction false} BelowByRank(steps: seq<Step>, n: nat, m: nat)
    requires Shaped(steps) && m <= n < |steps|
    ensures Rank(steps[n]) <= 1 ==> !CreatesBelow(steps, m)
    ensures Rank(steps[n]) <= 5 ==> !CallsOutBelow(steps, m)
    ensures Rank(steps[n]) <= 3 ==> !GivenBelow(steps, m)
  {
    if m > 0 {
      RanksIncrease(steps, m - 1, n);
      BelowByRank(steps, n, m - 1);
    }
  }

  /** Which kinds of step the whole saga has, once the step at n is past them. */
  lemma {:induction false} WholeByRank(steps: seq<Step>, n: nat, m: nat)
    requires Shaped(steps) && n < m <= |steps|
    ensures Rank(steps[n]) >= 1 && !steps[n].InitOrder? ==> CreatesBelow(steps, m) == CreatesBelow(steps, n)
    ensures Rank(steps[n]) >= 5 && !steps[n].External? ==> CallsOutBelow(steps, m) == CallsOutBelow(steps, n)
    ensures Rank(steps[n]) >= 3 && !steps[n].UseVoucher? ==> GivenBelow(steps, m) == GivenBelow(steps, n)
  {
    if m > n + 1 {
      RanksIncrease(steps, n, m - 1);
      WholeByRank(steps, n, m - 1);
    }
  }

  lemma {:induction false} CreatesHere(steps: seq<Step>, i: nat, n: nat)
    requires i < n <= |steps| && steps[i].InitOrder?
    ensures CreatesBelow(steps, n)
  {
    if i < n - 1 { CreatesHere(steps, i, n - 1); }
  }

  /** The sagas that run from a new order or a just gated one to a confirmed transaction. */
  datatype Saga =
    | BuyCardSaga(atm: bool, voucher: bool)
    | TopUpSaga(voucher: bool)
    | PayBillSaga(atm: bool, voucher: bool)
    | CashOutSaga
    | IbftTransferSaga(voucher: bool)
    | FundWal2BankSaga
    | StaticQrSaga(voucher: bool)
    | FundWal2WalSaga(voucher: bool)
    | TransferGpayWalletSaga
    | MerchantCashSaga
    | UpdateBalanceVaSaga
    | LixiSaga
    | ConfirmOrderSaga(voucher: bool, openWallet: bool)

  function StepsOf(saga: Saga): seq<Step> {
    match saga
    case BuyCardSaga(atm, v) => BuyCard(atm, v)
    case TopUpSaga(v) => TopUp(v)
    case PayBillSaga(atm, v) => PayBill(atm, v)
    case CashOutSaga => CashOut()
    case IbftTransferSaga(v) => IbftTransfer(v)
    case FundWal2BankSaga => FundWal2Bank()
    case StaticQrSaga(v) => StaticQr(v)
    case FundWal2WalSaga(v) => FundWal2Wal(v)
    case TransferGpayWalletSaga => TransferGpayWallet()
    case MerchantCashSaga => MerchantCash()
    case UpdateBalanceVaSaga => UpdateBalanceVa()
    case LixiSaga => LixiPayout()
    case ConfirmOrderSaga(v, w) => ConfirmOrder(v, w)
  }

  lemma BuyCardShaped(atm: bool, v: bool)
    ensures Shaped(BuyCard(atm, v))
  {
    if atm { assert Shaped(BuyCard(true, v)); } else { assert Shaped(BuyCard(false, v)); }
  }

  lemma PayBillShaped(atm: bool, v: bool)
    ensures Shaped(PayBill(atm, v))
  {
    if atm { assert Shaped(PayBill(true, v)); } else { assert Shaped(PayBill(false, v)); }
  }

  lemma BankSagasShaped(v: bool)
    ensures Shaped(TopUp(v)) && Shaped(CashOut()) && Shaped(IbftTransfer(v)) && Shaped(FundWal2Bank())
  {
    TransferSagasShaped();
  }

  lemma TransferSagasShaped()
    ensures Shaped(CashOut()) && Shaped(FundWal2Bank())
  {
  }

  lemma InternalSagasShaped(v: bool)
    ensures Shaped(StaticQr(v)) && Shaped(FundWal2Wal(v)) && Shaped(TransferGpayWallet()) && Shaped(MerchantCash())
    ensures Shaped(UpdateBalanceVa()) && Shaped(LixiPayout())
  {
  }

  lemma ConfirmOrderShaped(v: bool, w: bool)
    ensures Shaped(ConfirmOrder(v, w))
  {
  }

  lemma EverySagaShaped(saga: Saga)
    ensures Shaped(StepsOf(saga))
  {
    if saga.BuyCardSaga? {
      BuyCardShaped(saga.atm, saga.voucher);
    } else if saga.PayBillSaga? {
      PayBillShaped(saga.atm, saga.voucher);
    } else if saga.ConfirmOrderSaga? {
      ConfirmOrderShaped(saga.voucher, saga.openWallet);
    } else if IsExternal(saga) {
      BankSagaShaped(saga);
    } else {
      InternalSagaShaped(saga);
    }
  }

  lemma BankSagaShaped(saga: Saga)
    requires saga.TopUpSaga? || saga.CashOutSaga? || saga.IbftTransferSaga? || saga.FundWal2BankSaga?
    ensures Shaped(StepsOf(saga))
  {
    BankSagasShaped(true);
    BankSagasShaped(false);
  }

  lemma InternalSagaShaped(saga: Saga)
    requires !IsExternal(saga)
    ensures Shaped(StepsOf(saga))
  {
    InternalSagasShaped(true);
    InternalSagasShaped(false);
  }

  // ----- the sagas by name

  /** What a saga asks of a provider or bank. */
  function ProductsOf(saga: Saga): seq<Product> {
    match saga
    case BuyCardSaga(_, _) => [CardSale]
    case TopUpSaga(_) => [Airtime]
    case PayBillSaga(_, _) => [BillPayment]
    case CashOutSaga => [BankTransfer]
    case IbftTransferSaga(_) => [BankTransfer]
    case FundWal2BankSaga => [BankTransfer]
    case ConfirmOrderSaga(_, openWallet) => if openWallet then [WalletFunding] else []
    case _ => []
  }

  /** Sagas whose confirmation can be compensated without a transaction record. */
  predicate NilSafe(saga: Saga) {
    saga.TopUpSaga? || saga.StaticQrSaga? || saga.MerchantCashSaga? || saga.ConfirmOrderSaga?
  }

  // The parts of a saga, read off a table of its peculiarities.

  function CheckPart(saga: Saga): seq<Step> { if saga.PayBillSaga? || saga.CashOutSaga? then [Check] else [] }

  function CreatePart(saga: Saga): seq<Step> {
    if OnExistingOrder(saga) then [] else [InitOrder(!saga.TransferGpayWalletSaga? && !saga.LixiSaga?)]
  }

  function VoucherPart(saga: Saga): seq<Step> {
    if HasVoucherStep(saga) then [UseVoucher(TakesVoucher(saga), !saga.ConfirmOrderSaga?)] else []
  }

  function AskPart(saga: Saga): seq<Step> {
    if saga.ConfirmOrderSaga? then [External(saga.openWallet, WalletFunding)]
    else if ProductsOf(saga) != [] then [External(true, ProductsOf(saga)[0])]
    else []
  }

  function FeePart(saga: Saga): seq<Step> { if saga.BuyCardSaga? then [CardFee(true)] else [] }

  function Table(saga: Saga): seq<Step> {
    CheckPart(saga) + CreatePart(saga) + [ProcessOrder] + VoucherPart(saga) +
    [InitTx] + AskPart(saga) + FeePart(saga) +
    [ConfirmTx(NilSafe(saga))] + [SucceedOrder(!saga.TransferGpayWalletSaga?)]
  }

  /** The step lists and the table are the same sagas. */
  lemma StepsByName(saga: Saga)
    ensures StepsOf(saga) == Table(saga)
  {
    if saga.BuyCardSaga? {
      BuyCardByName(saga.atm, saga.voucher);
    } else if saga.PayBillSaga? {
      PayBillByName(saga.atm, saga.voucher);
    } else if IsExternal(saga) {
      ExternalByName(saga);
    } else {
      InternalByName(saga);
    }
  }

  lemma BuyCardByName(atm: bool, v: bool)
    ensures BuyCard(atm, v) == Table(BuyCardSaga(atm, v))
  {
  }

  lemma PayBillByName(atm: bool, v: bool)
    ensures PayBill(atm, v) == Table(PayBillSaga(atm, v))
  {
  }

  lemma ExternalByName(saga: Saga)
    requires IsExternal(saga) && !saga.BuyCardSaga? && !saga.PayBillSaga?
    ensures StepsOf(saga) == Table(saga)
  {
  }

  lemma InternalByName(saga: Saga)
    requires !IsExternal(saga)
    ensures StepsOf(saga) == Table(saga)
  {
  }

  // ----- families

  lemma {:induction false} KindsBelow(steps: seq<Step>, n: nat)
    requires n <= |steps|
    ensures CallsOutBelow(steps, n) <==> exists i | 0 <= i < n :: steps[i].External?
    ensures GivenBelow(steps, n) <==> exists i | 0 <= i < n :: steps[i].UseVoucher? && steps[i].given
    ensures CreatesBelow(steps, n) <==> exists i | 0 <= i < n :: steps[i].InitOrder?
  {
    if n > 0 { KindsBelow(steps, n - 1); }
  }

  /** Sagas with a provider or bank step; ConfirmOrder has one even where it does not apply. */
  predicate IsExternal(saga: Saga) {
    saga.BuyCardSaga? || saga.TopUpSaga? || saga.PayBillSaga? || saga.CashOutSaga? || saga.IbftTransferSaga?
    || saga.FundWal2BankSaga? || saga.ConfirmOrderSaga?
  }

  predicate TakesVoucher(saga: Saga) {
    match saga
    case BuyCardSaga(_, v) => v
    case TopUpSaga(v) => v
    case PayBillSaga(_, v) => v
    case IbftTransferSaga(v) => v
    case StaticQrSaga(v) => v
    case FundWal2WalSaga(v) => v
    case ConfirmOrderSaga(v, _) => v
    case _ => false
  }

  /** Sagas with a voucher step, whether or not a voucher is given. */
  predicate HasVoucherStep(saga: Saga) {
    || saga.BuyCardSaga? || saga.TopUpSaga? || saga.PayBillSaga? || saga.IbftTransferSaga?
    || saga.StaticQrSaga? || saga.FundWal2WalSaga? || saga.ConfirmOrderSaga?
  }

  predicate OnExistingOrder(saga: Saga) {
    saga.ConfirmOrderSaga? || ((saga.BuyCardSaga? || saga.PayBillSaga?) && saga.atm)
  }

  /** The saga's step list has the kinds of step its family says. */
  predicate FitsFamily(saga: Saga) {
    && (CallsOut(StepsOf(saga)) <==> IsExternal(saga))
    && (VoucherGiven(StepsOf(saga)) <==> TakesVoucher(saga))
    && (Creates(StepsOf(saga)) <==> !OnExistingOrder(saga))
  }

  lemma Families(saga: Saga)
    ensures FitsFamily(saga)
  {
    if saga.BuyCardSaga? {
      BuyCardFamily(saga.atm, saga.voucher);
    } else if saga.PayBillSaga? {
      PayBillFamily(saga.atm, saga.voucher);
    } else if saga.ConfirmOrderSaga? {
      ConfirmOrderFamily(saga.voucher, saga.openWallet);
    } else if saga.CashOutSaga? || saga.FundWal2BankSaga? {
      BankFamily(saga);
    } else if saga.TopUpSaga? || saga.IbftTransferSaga? {
      VoucherFamily(saga);
    } else {
      InternalFamily(saga);
    }
  }

  lemma BuyCardFamily(atm: bool, v: bool)
    ensures FitsFamily(BuyCardSaga(atm, v))
  {
    var steps := BuyCard(atm, v);
    var base := if atm then 0 else 1;
    KindsBelow(steps, |steps|);
    assert !atm ==> steps[0].InitOrder?;
    assert steps[base + 1] == UseVoucher(v, true) && steps[base + 3].External?;
  }

  lemma PayBillFamily(atm: bool, v: bool)
    ensures FitsFamily(PayBillSaga(atm, v))
  {
    var steps := PayBill(atm, v);
    var base := if atm then 1 else 2;
    KindsBelow(steps, |steps|);
    assert !atm ==> steps[1].InitOrder?;
    assert steps[base + 1] == UseVoucher(v, true) && steps[base + 3].External?;
  }

  lemma ConfirmOrderFamily(v: bool, w: bool)
    ensures FitsFamily(ConfirmOrderSaga(v, w))
  {
    var steps := ConfirmOrder(v, w);
    KindsBelow(steps, |steps|);
    assert steps[1] == UseVoucher(v, false) && steps[3].External?;
  }

  lemma BankFamily(saga: Saga)
    requires saga.CashOutSaga? || saga.FundWal2BankSaga?
    ensures FitsFamily(saga)
  {
    var steps := StepsOf(saga);
    KindsBelow(steps, |steps|);
    if saga.CashOutSaga? {
      assert steps[1].InitOrder? && steps[4].External?;
    } else {
      assert steps[0].InitOrder? && steps[3].External?;
    }
  }

  lemma VoucherFamily(saga: Saga)
    requires saga.TopUpSaga? || saga.IbftTransferSaga?
    ensures FitsFamily(saga)
  {
    var steps := StepsOf(saga);
    KindsBelow(steps, |steps|);
    assert steps[0].InitOrder? && steps[2] == UseVoucher(saga.voucher, true) && steps[4].External?;
  }

  lemma InternalFamily(saga: Saga)
    requires !IsExternal(saga)
    ensures FitsFamily(saga)
  {
    var steps := StepsOf(saga);
    KindsBelow(steps, |steps|);
    assert steps[0].InitOrder?;
    if saga.StaticQrSaga? || saga.FundWal2WalSaga? { assert steps[2] == UseVoucher(saga.voucher, true); }
  }
}
