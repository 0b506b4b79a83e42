/** JobCancelExpiredOrder: a batch of expired orders, worked off one by one. */
module Expiry {
  import opened Statuses

  datatype Doc = Doc(status: OrderStatus, expired: bool, retrieved: bool)

  datatype Tx = Tx(status: TxStatus, initial: bool)

  /** An order as it was read; `tx` is the id of its transaction, "" if it has none. */
  datatype Order = Order(id: string, orderType: string, bankCode: string, tx: string, doc: Doc)

  /** Answers met by one order: the bank's code for it (None: an error), and whether each call succeeds. */
  datatype Replies = Replies(code: Option<BankCode>, found: bool, written: bool, confirmed: bool, cancelled: bool)

  predicate AskBank(o: Order) { o.orderType == "CASHIN" && o.bankCode == "GPNAPASGPBANK" && !o.doc.retrieved }

  /** What becomes of the stored order, by its own record and answers alone. */
  function DocAfter(o: Order, r: Replies, found: bool, doc: Doc): Doc {
    if !r.written then doc
    else if !AskBank(o) then Doc(Failed, true, o.doc.retrieved)
    else if r.code.None? then Doc(Failed, o.doc.expired, true)
    else if found && IsSuccess(r.code.value) then Doc(Success, o.doc.expired, true)
    else if found && IsFail(r.code.value) then Doc(Failed, o.doc.expired, true)
    else doc
  }

  /** What becomes of its transaction, if it is found; `wrote`: the order was stored and its write went through. */
  function TxAfter(o: Order, r: Replies, wrote: bool, tx: Tx): Tx {
    if !AskBank(o) then (if wrote && tx.initial && r.cancelled then tx.(status := TxFailed) else tx)
    else if r.code.Some? && IsSuccess(r.code.value) then (if r.confirmed then tx.(status := TxFinish) else tx)
    else if r.cancelled && (r.code.None? || IsFail(r.code.value)) then tx.(status := TxFailed)
    else tx
  }

  /** FAILED, expired, and turned away by the gate. */
  predicate Shut(doc: Doc) { doc.status == Failed && doc.expired && Gate(Some(doc.status), doc.expired) != Valid }

  class Stores {
    var orders: map<string, Doc>
    var txs: map<string, Tx>

    constructor (orders: map<string, Doc>, txs: map<string, Tx>)
      ensures this.orders == orders && this.txs == txs
    {
      this.orders, this.txs := orders, txs;
    }

    /** ReplaceByID reports an order that is not stored as an error. */
    method Replace(id: string, doc: Doc, written: bool) returns (ok: bool)
      modifies this`orders
      ensures ok == (written && id in old(orders))
      ensures orders == if ok then old(orders)[id := doc] else old(orders)
    {
      ok := written && id in orders;
      if ok { orders := orders[id := doc]; }
    }

    method SetTx(id: string, status: TxStatus, ok: bool)
      requires id in txs
      modifies this`txs
      ensures txs == if ok then old(txs)[id := old(txs)[id].(status := status)] else old(txs)
    {
      if ok { txs := txs[id := txs[id].(status := status)]; }
    }

    predicate Finds(o: Order, r: Replies)
      reads this
    {
      r.found && o.tx in txs
    }

    predicate Writes(o: Order, r: Replies)
      reads this
    {
      r.written && o.id in orders
    }

    /** Orders and transactions other than this order's are left alone. */
    twostate predicate OnlyTouches(o: Order)
      reads this
    {
      && orders.Keys == old(orders).Keys && txs.Keys == old(txs).Keys
      && (forall id | id in orders && id != o.id :: orders[id] == old(orders)[id])
      && (forall id | id in txs && id != o.tx :: txs[id] == old(txs)[id])
    }

    /** The order and its transaction are as their own answers make them. */
    twostate predicate Settled(o: Order, r: Replies)
      reads this
    {
      && (o.id in orders ==> o.id in old(orders) && orders[o.id] == DocAfter(o, r, old(Finds(o, r)), old(orders)[o.id]))
      && (o.tx in txs ==> o.tx in old(txs))
      && (o.tx in txs ==>
            txs[o.tx] == if r.found then TxAfter(o, r, old(Writes(o, r)), old(txs)[o.tx]) else old(txs)[o.tx])
    }

    method Work(order: Order, r: Replies)
      requires "" !in txs
      modifies this
      ensures OnlyTouches(order) && Settled(order, r)
    {
      var v := order.doc;
      if order.orderType == "CASHIN" && order.bankCode == "GPNAPASGPBANK" && !v.retrieved {
        v := v.(retrieved := true);
        if r.code.None? {
          var _ := Replace(order.id, v.(status := Failed), r.written);
          if Finds(order, r) { SetTx(order.tx, TxFailed, r.cancelled); }
        } else if Finds(order, r) {
          if IsSuccess(r.code.value) {
            SetTx(order.tx, TxFinish, r.confirmed);
            var _ := Replace(order.id, v.(status := Success), r.written);
          }
          if IsFail(r.code.value) {
            SetTx(order.tx, TxFailed, r.cancelled);
            var _ := Replace(order.id, v.(status := Failed), r.written);
          }
        }
      } else {
        v := v.(expired := true, status := Failed);
        var wrote := Replace(order.id, v, r.written);
        if wrote && order.tx != "" && Finds(order, r) && txs[order.tx].initial {
          SetTx(order.tx, TxFailed, r.cancelled);
        }
      }
    }

    /**
     In a batch of distinct orders, each is settled by its own record and answers, and nothing else changes; those the
     bank is not asked about end FAILED and expired, so that the gate turns them away.
     */
    method CancelExpiredOrders(batch: seq<Order>, answers: string -> Replies)
      requires "" !in txs
      requires forall i, j | 0 <= i < j < |batch| ::
        batch[i].id != batch[j].id && (batch[i].tx == batch[j].tx ==> batch[i].tx == "")
      modifies this
      ensures orders.Keys == old(orders).Keys && txs.Keys == old(txs).Keys
      ensures forall i | 0 <= i < |batch| :: Settled(batch[i], answers(batch[i].id))
      // orders
      ensures forall i | 0 <= i < |batch| && batch[i].id in orders ::
        var o, r := batch[i], answers(batch[i].id);
        var asked := o.orderType == "CASHIN" && o.bankCode == "GPNAPASGPBANK" && !o.doc.retrieved;
        var answered := asked && r.code.Some? && r.found && o.tx in txs && |r.code.value| >= 3;
        && (r.written && !asked ==> orders[o.id] == Doc(Failed, true, o.doc.retrieved) && Shut(orders[o.id]))
        && (r.written && asked && r.code.None? ==> orders[o.id] == Doc(Failed, o.doc.expired, true))
        && (r.written && answered && r.code.value[0] == '2' ==> orders[o.id] == Doc(Success, o.doc.expired, true))
        && (r.written && answered && r.code.value[0] == '4' ==> orders[o.id] == Doc(Failed, o.doc.expired, true))
        && (!r.written || (asked && r.code.Some? && !(answered && r.code.value[0] in {'2', '4'})) ==>
              orders[o.id] == old(orders)[o.id])
      // transactions
      ensures forall i | 0 <= i < |batch| && batch[i].tx in txs ::
        var o, r := batch[i], answers(batch[i].id);
        var was := old(txs)[o.tx];
        var asked := o.orderType == "CASHIN" && o.bankCode == "GPNAPASGPBANK" && !o.doc.retrieved;
        var cancelled :=
          && r.found && r.cancelled
          && if !asked then was.initial && r.written && o.id in orders
             else r.code.None? || (|r.code.value| >= 3 && r.code.value[0] == '4');
        var confirmed :=
          asked && r.found && r.confirmed && r.code.Some? && |r.code.value| >= 3 && r.code.value[0] == '2';
        txs[o.tx] ==
          if cancelled then Tx(TxFailed, was.initial) else if confirmed then Tx(TxFinish, was.initial) else was
      ensures forall id | id in orders && (forall i | 0 <= i < |batch| :: batch[i].id != id) ::
        orders[id] == old(orders)[id]
      ensures forall id | id in txs && (forall i | 0 <= i < |batch| :: batch[i].tx != id) :: txs[id] == old(txs)[id]
    {
      for k := 0 to |batch|
        invariant orders.Keys == old(orders).Keys && txs.Keys == old(txs).Keys
        invariant forall i | 0 <= i < k :: Settled(batch[i], answers(batch[i].id))
        invariant forall id | id in orders && (forall i | 0 <= i < k :: batch[i].id != id) ::
          orders[id] == old(orders)[id]
        invariant forall id | id in txs && (forall i | 0 <= i < k :: batch[i].tx != id) :: txs[id] == old(txs)[id]
      {
        Work(batch[k], answers(batch[k].id));
      }
    }
  }

  // ----- what the job achieves

  /**
   An order the bank is not asked about and its transaction agree, (FAILED, FAILED), exactly if the transaction was
   FAILED already or was still INITIAL and its Cancel went through; otherwise the order fails and its transaction
   stays as it was.
   */
  lemma ExpiryAgrees(o: Order, r: Replies, found: bool, doc: Doc, tx: Tx)
    requires !AskBank(o) && r.written
    ensures
      DocAfter(o, r, found, doc).status == Failed && TxAfter(o, r, true, tx).status == TxFailed <==>
      tx.status == TxFailed || (tx.initial && r.cancelled)
  {
  }

  /** A confirmation that fails is ignored: the order is SUCCESS while its transaction is not confirmed. */
  lemma IgnoredConfirm(o: Order, r: Replies, doc: Doc, tx: Tx)
    requires AskBank(o) && r.written && r.code.Some? && IsSuccess(r.code.value) && tx.status != TxFinish
    ensures DocAfter(o, r, true, doc).status == Success
    ensures TxAfter(o, r, true, tx).status == TxFinish <==> r.confirmed
  {
  }
}
