/** The refund decision: when a refund is initiated, sent to the bank, confirmed or cancelled. */
module Refund {
  import opened Statuses
  import opened Int64

  datatype RefundType = Unspecified | Indirect | Api

  datatype Request = Request(merchant: string, amount: int64, kind: RefundType)

  /** The transaction to be refunded; `settled`: its settlement status is SUCCESS. */
  datatype Source = Source(status: TxStatus, merchant: string, settled: bool, fund: string, transType: string,
    subType: string)

  datatype Setting = Setting(
    createBy: string, funds: seq<string>, payment: string, refundType: string,
    confirm: string, condition: string, value: int64, status: string)

  datatype Config = Config(transType: string, subTypes: seq<string>, settings: seq<Setting>)

  datatype Account = Account(revenue: int64, cash: int64)

  /**
   Answers of the calls of one run; `closed`: the last order write took effect; `schedule`: how the three checks
   interleave.
   */
  datatype Replies = Replies(
    created: bool, source: Option<Source>, inited: bool, account: Option<Account>, bank: bool, confirmed: bool,
    notified: bool, processed: bool, closed: bool, config: Option<Config>, schedule: seq<nat>)

  datatype RefundEnd = Refused | Unconfirmed | Unnoticed | Refunded

  datatype RefundCall = InitRefund | BankRefund | ConfirmRefund | CancelRefund

  // ----- the merchant's setting

  function Empty(): Setting { Setting("", [], "", "", "", "", 0, "") }

  predicate Fits(v: Setting, src: Source) {
    && v.status == "ACTIVE" && src.fund in v.funds && v.confirm == "AUTO"
    && v.payment == if src.settled then "PAID" else "UNPAID"
  }

  predicate IsLastFit(settings: seq<Setting>, src: Source, i: int) {
    && 0 <= i < |settings| && Fits(settings[i], src)
    && forall j | i < j < |settings| :: !Fits(settings[j], src)
  }

  /**
   The loop's `break` leaves only the switch: the last fitting setting wins, and the choice is empty exactly if none
   fits.
   */
  method ChooseSetting(settings: seq<Setting>, src: Source) returns (choice: Setting)
    ensures choice == Empty() <==> forall i | 0 <= i < |settings| :: !Fits(settings[i], src)
    ensures choice != Empty() ==> exists i :: IsLastFit(settings, src, i) && choice == settings[i]
  {
    choice := Empty();
    ghost var last := 0;
    for k := 0 to |settings|
      invariant choice == Empty() ==> forall i | 0 <= i < k :: !Fits(settings[i], src)
      invariant choice != Empty() ==> last < k && Fits(settings[last], src) && choice == settings[last]
      invariant choice != Empty() ==> forall i | last < i < k :: !Fits(settings[i], src)
    {
      var v := settings[k];
      if v.status == "ACTIVE" && src.fund in v.funds && v.confirm == "AUTO" {
        if src.settled {
          if v.payment == "PAID" { choice := v; last := k; }
        } else {
          if v.payment == "UNPAID" { choice := v; last := k; }
        }
      }
    }
    if choice != Empty() { assert IsLastFit(settings, src, last); }
  }

  // ----- the three checks

  /** Does check number n return an error? */
  predicate CheckFails(n: nat, choice: Setting, amount: int64) {
    if n == 0 then choice == Empty()
    else if n == 1 then choice.condition == "LT" && amount >= choice.value
    else n == 2 && choice.condition == "LE" && amount > choice.value
  }

  /** The group's error is that of the first check to fail, in whatever order they come to run. */
  method Wait(schedule: seq<nat>, choice: Setting, amount: int64) returns (err: bool)
    ensures err <==> exists i | 0 <= i < |schedule| :: CheckFails(schedule[i], choice, amount)
  {
    for k := 0 to |schedule|
      invariant forall i | 0 <= i < k :: !CheckFails(schedule[i], choice, amount)
    {
      if CheckFails(schedule[k], choice, amount) { return true; }
    }
    return false;
  }

  /** Every check runs, once, in some order. */
  ghost predicate RunsAll(schedule: seq<nat>) { multiset(schedule) == multiset{0, 1, 2} }

  predicate Accepts(choice: Setting, amount: int64) {
    && choice != Empty()
    && (choice.condition == "LT" ==> amount < choice.value)
    && (choice.condition == "LE" ==> amount <= choice.value)
  }

  /** The verdict does not depend on the order in which the checks run. */
  lemma AnyOrder(schedule: seq<nat>, choice: Setting, amount: int64)
    requires RunsAll(schedule)
    ensures (exists i | 0 <= i < |schedule| :: CheckFails(schedule[i], choice, amount)) <==> !Accepts(choice, amount)
  {
    assert forall n: nat :: n in schedule <==> n in multiset(schedule);
    assert 0 in schedule && 1 in schedule && 2 in schedule;
    if !Accepts(choice, amount) {
      var n := if choice == Empty() then 0 else if choice.condition == "LT" then 1 else 2;
      assert n in schedule && CheckFails(n, choice, amount);
    }
  }

  // ----- who is refunded, and how

  /** Settled transactions are refunded from the cash wallet, others from the revenue wallet. */
  function Wallet(src: Source, acc: Account): int64 { if src.settled then acc.cash else acc.revenue }

  predicate Admitted(req: Request, ans: Replies) {
    ans.created && ans.source.Some? &&
    !(ans.source.value.fund == "BALANCE_WAL" && ans.source.value.settled && req.kind == Api)
  }

  /**
   The refund was initiated for a finished transaction, and its merchant's account, if there is one, could be read.
   */
  predicate Checkable(req: Request, ans: Replies) {
    Admitted(req, ans) && ans.inited && ans.source.value.status == TxFinish &&
    (ans.source.value.merchant != "" ==> ans.account.Some?)
  }

  /** The wallet on the settlement's side covers the amount. */
  predicate Covered(req: Request, ans: Replies)
    requires Checkable(req, ans)
  {
    ans.source.value.merchant != "" ==> Sub(Wallet(ans.source.value, ans.account.value), req.amount) >= 0
  }

  /** Where the difference fits into 64 bits, covering means what it says, on the wallet of the settlement's side. */
  lemma CoversExactly(req: Request, ans: Replies)
    requires Checkable(req, ans) && ans.source.value.merchant != ""
    ensures
      var wallet := if ans.source.value.settled then ans.account.value.cash else ans.account.value.revenue;
      -Max64 - 1 <= wallet - req.amount <= Max64 ==> (Covered(req, ans) <==> req.amount <= wallet)
  {
    SignOfDifference(Wallet(ans.source.value, ans.account.value), req.amount);
  }

  /** Asked for by the operator, before settlement. */
  predicate ByOperator(req: Request, src: Source) { req.merchant == "" && !src.settled }

  ghost predicate Approves(cfg: Config, src: Source, choice: Setting, amount: int64) {
    && cfg.transType == src.transType && (cfg.subTypes != [] ==> src.subType in cfg.subTypes)
    && (exists i :: IsLastFit(cfg.settings, src, i) && choice == cfg.settings[i]) && Accepts(choice, amount)
  }

  /** Asked for by a merchant whose configuration approves it automatically, under the setting `choice`. */
  ghost predicate Automatic(req: Request, ans: Replies, choice: Setting)
    requires ans.source.Some?
  {
    && req.merchant != "" && ans.processed && ans.config.Some?
    && Approves(ans.config.value, ans.source.value, choice, req.amount)
  }

  /** Goes to the bank. */
  ghost predicate BankDue(req: Request, ans: Replies) {
    Checkable(req, ans) && Covered(req, ans) &&
    ((ByOperator(req, ans.source.value) && req.kind == Api) || exists choice ::
      Automatic(req, ans, choice) && choice.refundType == "API")
  }

  ghost predicate ConfirmDue(req: Request, ans: Replies) {
    Checkable(req, ans) && Covered(req, ans) &&
    (ByOperator(req, ans.source.value) || exists choice :: Automatic(req, ans, choice))
      && (BankDue(req, ans) ==> ans.bank)
  }

  ghost predicate CancelDue(req: Request, ans: Replies) {
    (Checkable(req, ans) && !Covered(req, ans)) || (BankDue(req, ans) && !ans.bank)
  }

  /** The run reports an error. */
  ghost predicate Errs(req: Request, ans: Replies) {
    || !Checkable(req, ans) || !Covered(req, ans) || (BankDue(req, ans) && !ans.bank)
    || (if ByOperator(req, ans.source.value) then ConfirmDue(req, ans) && ans.confirmed && !ans.notified
        else !ans.processed || (ConfirmDue(req, ans) && !ans.confirmed))
  }

  /** The order is left PROCESSING, for an admin to decide. */
  ghost predicate StaysProcessing(req: Request, ans: Replies) {
    && Checkable(req, ans) && Covered(req, ans) && !ByOperator(req, ans.source.value) && ans.processed
    && !(ConfirmDue(req, ans) && ans.closed)
  }

  function On(c: bool, call: RefundCall): seq<RefundCall> { if c then [call] else [] }

  /** The calls a run sends, in order. */
  ghost function SentBy(req: Request, ans: Replies): seq<RefundCall> {
    On(Admitted(req, ans), InitRefund) + On(BankDue(req, ans), BankRefund) +
    On(ConfirmDue(req, ans), ConfirmRefund) + On(CancelDue(req, ans), CancelRefund)
  }

  /** Confirm and Cancel are never both sent, and a refund the bank refuses is cancelled and not confirmed. */
  lemma NeverBoth(req: Request, ans: Replies)
    ensures !(ConfirmRefund in SentBy(req, ans) && CancelRefund in SentBy(req, ans))
    ensures BankDue(req, ans) && !ans.bank ==> CancelRefund in SentBy(req, ans) && ConfirmRefund !in SentBy(req, ans)
  {
  }

  /** The refund is initiated for a FINISH transaction, and its merchant's wallet, if it has one, covers the amount. */
  predicate Sound(req: Request, ans: Replies) {
    && ans.created && ans.source.Some? && ans.inited
    && var src := ans.source.value;
       && !(src.fund == "BALANCE_WAL" && src.settled && req.kind == Api)
       && src.status == TxFinish
       && (src.merchant != "" ==> ans.account.Some?)
       && (src.merchant != "" ==>
             Sub(if src.settled then ans.account.value.cash else ans.account.value.revenue, req.amount) >= 0)
  }

  /**
   A refund asked for by the operator is confirmed exactly if it is sound, not yet settled, and the bank, if it is to
   be refunded there, accepts it.
   */
  lemma OperatorRefund(req: Request, ans: Replies)
    requires req.merchant == ""
    ensures ConfirmDue(req, ans) <==>
      Sound(req, ans) && !ans.source.value.settled && (req.kind == Api ==> ans.bank)
  {
  }

  /**
   A refund asked for by a merchant is confirmed exactly if it is sound, its configuration is for this kind of
   transaction, the last setting that is ACTIVE, AUTO, for the source of funds and for PAID or UNPAID accepts the amount
   under LT or LE, and the bank, if that setting is for the API, accepts it.
   */
  lemma MerchantRefund(req: Request, ans: Replies)
    requires req.merchant != ""
    ensures ConfirmDue(req, ans) <==>
      (Sound(req, ans) && ans.processed && ans.config.Some? &&
        ConfigConfirms(req, ans.config.value, ans.source.value, ans.bank))
  {
    if ConfirmDue(req, ans) {
      var cfg, src := ans.config.value, ans.source.value;
      var choice :| Automatic(req, ans, choice);
      var i :| IsLastFit(cfg.settings, src, i) && choice == cfg.settings[i];
      assert LastOf(cfg.settings, src, i) && Takes(cfg.settings[i], req.amount);
      assert choice.refundType == "API" ==> BankDue(req, ans);
    }
    if Sound(req, ans) && ans.processed && ans.config.Some? &&
      ConfigConfirms(req, ans.config.value, ans.source.value, ans.bank) {
      ConfigApproves(req, ans);
    }
  }

  /** Setting i is the last one for this transaction. */
  predicate LastOf(settings: seq<Setting>, src: Source, i: int) {
    && 0 <= i < |settings| && Suits(settings[i], src) && forall j | i < j < |settings| :: !Suits(settings[j], src)
  }

  predicate Suits(v: Setting, src: Source) {
    && v.status == "ACTIVE" && v.confirm == "AUTO" && src.fund in v.funds
    && (if src.settled then v.payment == "PAID" else v.payment == "UNPAID")
  }

  predicate Takes(v: Setting, amount: int64) {
    (v.condition == "LT" ==> amount < v.value) && (v.condition == "LE" ==> amount <= v.value)
  }

  ghost predicate ConfigConfirms(req: Request, cfg: Config, src: Source, bank: bool) {
    && cfg.transType == src.transType && (cfg.subTypes == [] || src.subType in cfg.subTypes)
    && exists i ::
         && LastOf(cfg.settings, src, i) && Takes(cfg.settings[i], req.amount)
         && (cfg.settings[i].refundType == "API" ==> bank)
  }

  lemma ConfigApproves(req: Request, ans: Replies)
    requires req.merchant != "" && Sound(req, ans) && ans.processed && ans.config.Some?
    requires ConfigConfirms(req, ans.config.value, ans.source.value, ans.bank)
    ensures ConfirmDue(req, ans)
  {
    var cfg, src := ans.config.value, ans.source.value;
    var i :| LastOf(cfg.settings, src, i) && Takes(cfg.settings[i], req.amount) &&
      (cfg.settings[i].refundType == "API" ==> ans.bank);
    assert IsLastFit(cfg.settings, src, i) && Accepts(cfg.settings[i], req.amount);
    assert Automatic(req, ans, cfg.settings[i]);
    forall other | Automatic(req, ans, other) ensures other == cfg.settings[i] {
      OnlyChoice(cfg, src, cfg.settings[i], req.amount);
    }
  }

  class RefundDesk {
    var order: Option<OrderStatus>
    var sent: seq<RefundCall>

    constructor (order: Option<OrderStatus>)
      ensures this.order == order && sent == []
    {
      this.order, sent := order, [];
    }

    method InitRefundTrans(req: Request, ans: Replies) returns (err: bool)
      requires order.None? && sent == [] && RunsAll(ans.schedule)
      modifies this
      ensures sent == SentBy(req, ans)
      ensures order == Some(Success) <==>
        ConfirmDue(req, ans) && ans.confirmed && (req.merchant == "" ==> ans.notified) && ans.closed
      ensures order == Some(Failed) <==> (ans.closed &&
        ((Admitted(req, ans) && !ans.inited) || (Checkable(req, ans) && !Covered(req, ans))
          || (ConfirmDue(req, ans) && !ans.confirmed)))
      ensures err <==> Errs(req, ans)
      ensures order == Some(Processing) <==> StaysProcessing(req, ans)
      ensures order == None <==> !ans.created
      ensures order in {None, Some(Pending), Some(Processing), Some(Success), Some(Failed)}
    {
      if !ans.created { return true; }
      order := Some(Pending);
      if ans.source.None? { return true; }
      var src := ans.source.value;
      if src.fund == "BALANCE_WAL" && src.settled && req.kind == Api { return true; }
      err := CheckTransactionCondition(req, src, ans);
    }

    method Close(status: OrderStatus, written: bool)
      modifies this`order
      ensures order == if written then Some(status) else old(order)
    {
      if written { order := Some(status); }
    }

    method CheckTransactionCondition(req: Request, src: Source, ans: Replies) returns (err: bool)
      requires order == Some(Pending) && sent == [] && RunsAll(ans.schedule)
      requires Admitted(req, ans) && src == ans.source.value
      modifies this
      ensures sent == SentBy(req, ans)
      ensures order == Some(Success) <==>
        ConfirmDue(req, ans) && ans.confirmed && (req.merchant == "" ==> ans.notified) && ans.closed
      ensures order == Some(Failed) <==> (ans.closed &&
        (!ans.inited || (Checkable(req, ans) && !Covered(req, ans)) || (ConfirmDue(req, ans) && !ans.confirmed)))
      ensures err <==> Errs(req, ans)
      ensures order == Some(Processing) <==> StaysProcessing(req, ans)
      ensures order in {Some(Pending), Some(Processing), Some(Success), Some(Failed)}
    {
      sent := sent + [InitRefund];
      if !ans.inited {
        Close(Failed, ans.closed);
        return true;
      }
      if src.status != TxFinish { return true; }
      if src.merchant != "" {
        if ans.account.None? { return true; }
        var short := IsShort(src, ans.account.value, req.amount);
        if short {
          sent := sent + [CancelRefund];
          Close(Failed, ans.closed);
          return true;
        }
      }
      err := Decide(req, src, ans);
    }

    method IsShort(src: Source, acc: Account, amount: int64) returns (short: bool)
      ensures short <==> Sub(Wallet(src, acc), amount) < 0
    {
      short := false;
      if !src.settled {
        if Sub(acc.revenue, amount) < 0 { short := true; }
      } else {
        if Sub(acc.cash, amount) < 0 { short := true; }
      }
    }

    /** Who asked for the refund, and whether the transaction is settled, decides what happens next. */
    method Decide(req: Request, src: Source, ans: Replies) returns (err: bool)
      requires order == Some(Pending) && sent == [InitRefund] && RunsAll(ans.schedule)
      requires Checkable(req, ans) && Covered(req, ans) && src == ans.source.value
      modifies this
      ensures sent == SentBy(req, ans)
      ensures order == Some(Success) <==>
        ConfirmDue(req, ans) && ans.confirmed && (req.merchant == "" ==> ans.notified) && ans.closed
      ensures order == Some(Failed) <==> ans.closed && ConfirmDue(req, ans) && !ans.confirmed
      ensures err <==> Errs(req, ans)
      ensures order == Some(Processing) <==> StaysProcessing(req, ans)
      ensures order in {Some(Pending), Some(Processing), Some(Success), Some(Failed)}
    {
      if req.merchant == "" && src.settled {
        Close(Processing, ans.processed);
        return !ans.processed;
      }
      if req.merchant == "" && !src.settled {
        err := RefundByOperator(req, ans);
      } else {
        err := RefundByMerchant(req, src, ans);
      }
    }

    /** The bank first, if it is asked at all; then Confirm, or Cancel if the bank refused. */
    method Execute(viaBank: bool, bank: bool, confirmed: bool, noticed: bool, closed: bool) returns (end: RefundEnd)
      modifies this
      ensures sent == old(sent) + On(viaBank, BankRefund) + On(viaBank ==> bank, ConfirmRefund) +
        On(viaBank && !bank, CancelRefund)
      ensures order == if !closed then old(order)
        else match end case Refunded => Some(Success) case Unconfirmed => Some(Failed) case _ => old(order)
      ensures end == if viaBank && !bank then Refused else if !confirmed then Unconfirmed
        else if !noticed then Unnoticed else Refunded
    {
      if viaBank {
        sent := sent + [BankRefund];
        if !bank {
          sent := sent + [CancelRefund];
          return Refused;
        }
      }
      sent := sent + [ConfirmRefund];
      if !confirmed {
        Close(Failed, closed);
        return Unconfirmed;
      }
      if !noticed { return Unnoticed; }
      Close(Success, closed);
      return Refunded;
    }

    method RefundByOperator(req: Request, ans: Replies) returns (err: bool)
      requires order == Some(Pending) && sent == [InitRefund]
      requires Checkable(req, ans) && Covered(req, ans) && ByOperator(req, ans.source.value)
      modifies this
      ensures sent == SentBy(req, ans)
      ensures order == Some(Success) <==> ConfirmDue(req, ans) && ans.confirmed && ans.notified && ans.closed
      ensures order == Some(Failed) <==> ans.closed && ConfirmDue(req, ans) && !ans.confirmed
      ensures err <==> Errs(req, ans)
      ensures order == Some(Processing) <==> StaysProcessing(req, ans)
      ensures order in {Some(Pending), Some(Processing), Some(Success), Some(Failed)}
    {
      var end := Execute(req.kind == Api, ans.bank, ans.confirmed, ans.notified, ans.closed);
      err := end == Refused || end == Unnoticed;
    }

    method RefundByMerchant(req: Request, src: Source, ans: Replies) returns (err: bool)
      requires order == Some(Pending) && sent == [InitRefund] && RunsAll(ans.schedule)
      requires Checkable(req, ans) && Covered(req, ans) && src == ans.source.value && req.merchant != ""
      modifies this
      ensures sent == SentBy(req, ans)
      ensures order == Some(Success) <==> ConfirmDue(req, ans) && ans.confirmed && ans.closed
      ensures order == Some(Failed) <==> ans.closed && ConfirmDue(req, ans) && !ans.confirmed
      ensures err <==> Errs(req, ans)
      ensures order == Some(Processing) <==> StaysProcessing(req, ans)
      ensures order in {Some(Pending), Some(Processing), Some(Success), Some(Failed)}
    {
      if !ans.processed { return true; }
      order := Some(Processing);
      if ans.config.None? { return false; }
      var cfg := ans.config.value;
      if cfg.transType != src.transType { return false; }
      if cfg.subTypes != [] && src.subType !in cfg.subTypes { return false; }
      var choice := ChooseSetting(cfg.settings, src);
      OnlyChoice(cfg, src, choice, req.amount);
      var failed := Wait(ans.schedule, choice, req.amount);
      AnyOrder(ans.schedule, choice, req.amount);
      if failed { return false; }
      assert Automatic(req, ans, choice);
      var end := Execute(choice.refundType == "API", ans.bank, ans.confirmed, true, ans.closed);
      err := end == Refused || end == Unconfirmed;
    }

    /**
     An admin confirms a pending refund: Confirm and Cancel are never both sent, and the order follows the answers.
     */
    method ConfirmRefundTrans(kind: string, found: bool, bank: bool, confirmed: bool, noticed: bool,
        closed: bool) returns (err: bool)
      modifies this
      ensures sent == old(sent) + On(found && kind == "API", BankRefund) +
        On(found && (kind == "API" ==> bank), ConfirmRefund) + On(found && kind == "API" && !bank, CancelRefund)
      ensures order != old(order) ==>
        closed && found && (kind == "API" ==> bank) && order == Some(if confirmed then Success else Failed)
      ensures !err <==> found && (kind == "API" ==> bank) && confirmed && noticed
      ensures !err && closed ==> order == Some(Success)
    {
      if !found { return true; }
      var end := Execute(kind == "API", bank, confirmed, noticed, closed);
      err := end != Refunded;
    }

    /** Nothing keeps a refund that one run cancelled from being confirmed by the next. */
    method ConfirmAfterCancel() returns (err: bool)
      modifies this
      ensures sent == old(sent) + [BankRefund, CancelRefund] + [BankRefund, ConfirmRefund] && order == Some(Success)
      ensures !err
    {
      var _ := ConfirmRefundTrans("API", true, false, true, true, true);
      err := ConfirmRefundTrans("API", true, true, true, true, true);
    }

    method CancelRefundTrans(cancelled: bool) returns (err: bool)
      modifies this`sent
      ensures sent == old(sent) + [CancelRefund] && err == !cancelled
    {
      sent := sent + [CancelRefund];
      err := !cancelled;
    }
  }

  /** No setting but the chosen one can approve. */
  lemma OnlyChoice(cfg: Config, src: Source, choice: Setting, amount: int64)
    requires choice == Empty() ==> forall i | 0 <= i < |cfg.settings| :: !Fits(cfg.settings[i], src)
    requires choice != Empty() ==> exists i :: IsLastFit(cfg.settings, src, i) && choice == cfg.settings[i]
    ensures forall other :: Approves(cfg, src, other, amount) ==> other == choice
  {
    forall other | Approves(cfg, src, other, amount) ensures other == choice {
      var i :| IsLastFit(cfg.settings, src, i) && other == cfg.settings[i];
      var j :| IsLastFit(cfg.settings, src, j) && choice == cfg.settings[j];
      assert !(i < j) && !(j < i);
    }
  }
}
