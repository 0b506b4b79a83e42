/** serviceTransactionInit: the checks and fees a transaction request passes before InitTransaction is called. */
module Admission {
  import opened Statuses

  datatype Profile = Profile(kyc: string, everLinkedBank: bool)

  /** A merchant fee; `now`: its method is FEE_NOW. */
  datatype MerchantFee = MerchantFee(now: bool, amount: int, rate: int, fixed: int)

  /** Answers of the remote calls; a None is an error, except that an unreadable list of links counts as empty. */
  datatype Replies = Replies(
    payer: Option<Profile>, payerLinks: nat, payee: Option<Profile>, payeeLinks: nat,
    userFee: Option<int>, merchantFee: Option<MerchantFee>)

  datatype Obstacle = PayerKyc | PayerLink | PayeeKyc | PayeeLink | Quota | FeeService

  datatype QuotaCheck = QuotaCheck(user: string, verified: bool, linked: bool)

  datatype Verdict = Rejected(obstacle: Obstacle) | Sent

  // ----- the rules

  predicate MissesKyc(id: string, profile: Option<Profile>) {
    id != "" && profile.Some? && profile.value.kyc != "ACTIVE"
  }

  predicate MissesLink(id: string, profile: Option<Profile>, napas: bool) {
    id != "" && profile.Some? && !napas && !profile.value.everLinkedBank
  }

  /**
   Every party whose profile was found has passed KYC and, unless the transaction goes through NAPAS, has linked a
   bank.
   */
  predicate Cleared(id: string, profile: Option<Profile>, napas: bool) {
    !MissesKyc(id, profile) && !MissesLink(id, profile, napas)
  }

  /** A party is in the way exactly if its profile was found and lacks KYC or, outside NAPAS, any bank link ever. */
  lemma ClearedExactly(id: string, profile: Option<Profile>, napas: bool)
    ensures Cleared(id, profile, napas) <==>
      id == "" || profile.None? || (profile.value.kyc == "ACTIVE" && (napas || profile.value.everLinkedBank))
  {
  }

  /** What the checks look at and never change. */
  datatype Deal = Deal(payer: string, payee: string, merchant: string, napas: bool, transType: string)

  /** Is this obstacle in the way? `queries`: the merchant fee service has to be asked. */
  predicate Blocks(o: Obstacle, d: Deal, queries: bool, ans: Replies) {
    match o
    case PayerKyc => MissesKyc(d.payer, ans.payer)
    case PayerLink => MissesLink(d.payer, ans.payer, d.napas)
    case PayeeKyc => MissesKyc(d.payee, ans.payee)
    case PayeeLink => MissesLink(d.payee, ans.payee, d.napas)
    case Quota => ans.userFee.None?
    case FeeService => queries && ans.merchantFee.None? && d.transType != "VA"
  }

  predicate BothCleared(d: Deal, ans: Replies) { Cleared(d.payer, ans.payer, d.napas) && Cleared(d.payee, ans.payee,
      d.napas) }

  /** The obstacle is in the way, and none of an earlier check is. */
  predicate IsFirst(o: Obstacle, d: Deal, queries: bool, ans: Replies) {
    Blocks(o, d, queries, ans) &&
    match o
    case PayerKyc => true
    case PayerLink => !MissesKyc(d.payer, ans.payer)
    case PayeeKyc => Cleared(d.payer, ans.payer, d.napas)
    case PayeeLink => Cleared(d.payer, ans.payer, d.napas) && !MissesKyc(d.payee, ans.payee)
    case Quota => BothCleared(d, ans)
    case FeeService => BothCleared(d, ans) && ans.userFee.Some?
  }

  class TransactionRequest {
    const deal: Deal
    var payerKyc: bool
    var payerLinked: bool
    var payeeKyc: bool
    var payeeLinked: bool
    var merchantFee: int
    var merchantFeeTmp: int
    var rateFee: int
    var fixedFee: int
    var feeMethodSet: bool
    var exception: bool
    var userFee: int
    var status: string
    var state: string

    constructor (deal: Deal, merchantFee: int, merchantFeeTmp: int)
      ensures this.deal == deal && this.merchantFee == merchantFee && this.merchantFeeTmp == merchantFeeTmp
    {
      this.deal, this.merchantFee, this.merchantFeeTmp := deal, merchantFee, merchantFeeTmp;
      payerKyc, payerLinked, payeeKyc, payeeLinked := false, false, false, false;
      rateFee, fixedFee, userFee, feeMethodSet, exception, status, state := 0, 0, 0, false, false, "", "";
    }

    /** The merchant fee service is asked only if no fee was preset. */
    predicate QueriesFee()
      reads this
    {
      deal.merchant != "" && merchantFee == 0 && merchantFeeTmp == 0
    }

    /**
     The request is sent exactly if no obstacle is in the way, and a rejection names the first one. What is sent is
     PROCESSING/INITIAL; a queried fee lies wholly in one of the two buckets, and preset fees are as they were.
     */
    method Init(ans: Replies) returns (verdict: Verdict, quota: Option<QuotaCheck>)
      modifies this
      ensures verdict == Sent <==>
        BothCleared(deal, ans) && ans.userFee.Some?
          && (old(QueriesFee()) ==> ans.merchantFee.Some? || deal.transType == "VA")
      ensures verdict.Rejected? ==> IsFirst(verdict.obstacle, deal, old(QueriesFee()), ans)
      ensures verdict.Rejected? ==> status == old(status)
      ensures verdict == Sent ==> status == "PROCESSING" && state == "INITIAL" && userFee == ans.userFee.value
      ensures verdict == Sent && old(QueriesFee()) && ans.merchantFee.Some? ==> Charged(ans.merchantFee.value)
      ensures verdict == Sent && !(old(QueriesFee()) && ans.merchantFee.Some?) ==>
        merchantFee == old(merchantFee) && merchantFeeTmp == old(merchantFeeTmp)
      ensures quota.Some? <==> BothCleared(deal, ans)
      ensures quota.Some? ==> Flagged(ans)
      ensures quota.Some? && deal.transType in {"CASHIN", "OPENWALLET_CASHIN", "LIXI"} ==>
        quota.value == QuotaCheck(deal.payee, payeeKyc, payeeLinked)
      ensures quota.Some? && deal.transType !in {"CASHIN", "OPENWALLET_CASHIN", "LIXI"} ==>
        quota.value == QuotaCheck(deal.payer, payerKyc, payerLinked)
      ensures deal.merchant == "" || old(merchantFee) != 0 || old(merchantFeeTmp) != 0 ==>
        merchantFee == old(merchantFee) && merchantFeeTmp == old(merchantFeeTmp)
      ensures
        verdict == Sent && deal.merchant != "" && old(merchantFee) == 0 && old(merchantFeeTmp) == 0
        && ans.merchantFee.Some? ==>
          merchantFee + merchantFeeTmp == ans.merchantFee.value.amount
    {
      var obstacle := CheckParties(ans);
      if obstacle.Some? { return Rejected(obstacle.value), None; }
      var check := SelectUser();
      quota := Some(check);
      if ans.userFee.None? { return Rejected(Quota), quota; }
      var charged := ChargeMerchant(ans.merchantFee);
      if !charged { return Rejected(FeeService), quota; }
      userFee := ans.userFee.value;
      status, state := "PROCESSING", "INITIAL";
      return Sent, quota;
    }

    /** The whole fee lies in the bucket its method names. */
    predicate Charged(fee: MerchantFee)
      reads this
    {
      && merchantFee + merchantFeeTmp == fee.amount
      && (if fee.now then merchantFeeTmp == 0 else merchantFee == 0)
      && rateFee == fee.rate && fixedFee == fee.fixed && (!fee.now ==> feeMethodSet)
    }

    /** Each party whose profile was found carries the flags of that profile. */
    predicate Flagged(ans: Replies)
      reads this
    {
      && (deal.payer != "" && ans.payer.Some? ==> payerKyc && payerLinked == (ans.payerLinks > 0))
      && (deal.payee != "" && ans.payee.Some? ==> payeeKyc && payeeLinked == (ans.payeeLinks > 0))
    }

    /** The user whose quota counts, with the flags the checks left. */
    method SelectUser() returns (check: QuotaCheck)
      ensures check ==
        if deal.transType in {"CASHIN", "OPENWALLET_CASHIN", "LIXI"} then QuotaCheck(deal.payee, payeeKyc, payeeLinked)
        else QuotaCheck(deal.payer, payerKyc, payerLinked)
    {
      check := QuotaCheck(deal.payer, payerKyc, payerLinked);
      if deal.transType in ["CASHIN", "OPENWALLET_CASHIN", "LIXI"] {
        check := QuotaCheck(deal.payee, payeeKyc, payeeLinked);
      }
    }

    method CheckParties(ans: Replies) returns (obstacle: Option<Obstacle>)
      modifies this`payerKyc, this`payerLinked, this`payeeKyc, this`payeeLinked
      ensures obstacle.None? <==> BothCleared(deal, ans)
      ensures obstacle.Some? ==> !obstacle.value.FeeService? && IsFirst(obstacle.value, deal, false, ans)
      ensures obstacle.None? ==> Flagged(ans)
    {
      obstacle := CheckPayer(ans);
      if obstacle.None? { obstacle := CheckPayee(ans); }
    }

    method CheckPayer(ans: Replies) returns (obstacle: Option<Obstacle>)
      modifies this`payerKyc, this`payerLinked
      ensures obstacle.None? <==> Cleared(deal.payer, ans.payer, deal.napas)
      ensures obstacle.Some? ==> obstacle.value in {PayerKyc, PayerLink} && IsFirst(obstacle.value, deal, false, ans)
      ensures obstacle.None? && deal.payer != "" && ans.payer.Some? ==> payerKyc && payerLinked == (ans.payerLinks > 0)
      ensures deal.payer == "" || ans.payer.None? ==> payerKyc == old(payerKyc) && payerLinked == old(payerLinked)
    {
      if deal.payer != "" && ans.payer.Some? {
        if ans.payer.value.kyc != "ACTIVE" { return Some(PayerKyc); }
        if !deal.napas {
          if !ans.payer.value.everLinkedBank { return Some(PayerLink); }
        }
        payerLinked := ans.payerLinks > 0;
        payerKyc := ans.payer.value.kyc == "ACTIVE";
      }
      return None;
    }

    /** Unlike the payer's, the payee's link flag is set before the checks. */
    method CheckPayee(ans: Replies) returns (obstacle: Option<Obstacle>)
      requires Cleared(deal.payer, ans.payer, deal.napas)
      modifies this`payeeKyc, this`payeeLinked
      ensures obstacle.None? <==> Cleared(deal.payee, ans.payee, deal.napas)
      ensures obstacle.Some? ==> obstacle.value in {PayeeKyc, PayeeLink} && IsFirst(obstacle.value, deal, false, ans)
      ensures obstacle.None? && deal.payee != "" && ans.payee.Some? ==> payeeKyc
      ensures deal.payee != "" && ans.payee.Some? ==> payeeLinked == (ans.payeeLinks > 0)
      ensures deal.payee == "" || ans.payee.None? ==> payeeKyc == old(payeeKyc) && payeeLinked == old(payeeLinked)
    {
      if deal.payee != "" && ans.payee.Some? {
        payeeLinked := ans.payeeLinks > 0;
        if ans.payee.value.kyc != "ACTIVE" { return Some(PayeeKyc); }
        if !deal.napas {
          if !ans.payee.value.everLinkedBank { return Some(PayeeLink); }
        }
        payeeKyc := ans.payee.value.kyc == "ACTIVE";
      }
      return None;
    }

    /** The merchant fee, if none was preset: wholly into one bucket. Only a VA transaction survives its failure. */
    method ChargeMerchant(answer: Option<MerchantFee>) returns (charged: bool)
      modifies this`merchantFee, this`merchantFeeTmp, this`rateFee, this`fixedFee, this`feeMethodSet, this`exception
      ensures charged <==> !(old(QueriesFee()) && answer.None? && deal.transType != "VA")
      ensures exception == (old(exception) || (old(QueriesFee()) && answer.None?))
      ensures old(QueriesFee()) && answer.Some? ==> Charged(answer.value)
      ensures !(old(QueriesFee()) && answer.Some?) ==>
        merchantFee == old(merchantFee) && merchantFeeTmp == old(merchantFeeTmp)
    {
      if deal.merchant != "" && merchantFee == 0 && merchantFeeTmp == 0 {
        if answer.None? {
          exception := true;
          return deal.transType == "VA";
        }
        var fee := answer.value;
        rateFee, fixedFee := fee.rate, fee.fixed;
        if fee.now {
          merchantFee := fee.amount;
        } else {
          merchantFeeTmp := fee.amount;
          feeMethodSet := true;
        }
      }
      return true;
    }
  }
}
