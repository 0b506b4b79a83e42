# Order service: sagas, lucky money, refunds, expiry

An e-wallet order service runs each payment as a saga: a list of steps, each with a forward function and a
compensation, played by a coordinator that compensates what was done when a step fails. This project models that
protocol and the service's other decision procedures in Dafny and proves what holds of them for every input, every
sequence of answers and every sequence of runs.

`dafny verify dfyconfig.toml` checks everything.

## Layout

| file | content |
|---|---|
| `Statuses.dfy`, `Steps.dfy` | statuses, the gate on existing orders, the state a saga works on, what each step and compensation does to it, and what a run is (`Run`, `Unwind`) |
| `Sagas.dfy` | the orchestrators as step lists, and the shape the create-and-pay sagas share |
| `Settlement.dfy`, `Guarantees.dfy`, `Products.dfy` | how the first failing step decides the whole result; agreement, exact outcomes, call counts, vouchers, what is asked of providers and banks |
| `Gated.dfy`, `BankStatus.dfy`, `Reaching.dfy`, `Redelivery.dfy`, `Vouchers.dfy`, `Otp.dfy`, `TokenCard.dfy`, `Finals.dfy`, `Records.dfy`, `Reopening.dfy`, `Providers.dfy` | runs on existing orders, one after the other: where a run stops, redelivered bank messages, vouchers, one-time passwords, how often ConfirmTransaction is attempted and a provider called |
| `Application.dfy`, `Coordinator.dfy`, `Operations.dfy` | the same in place: service methods and step closures over mutable fields, the log-driven coordinator, the gated operations, each proved to do what the functions say |
| `Int64.dfy`, `Division.dfy`, `Lixi.dfy`, `LixiLaws.dfy` | wrapping arithmetic; the lucky-money job in place, and its budget, head-count and once-per-user laws |
| `Refund.dfy`, `Admission.dfy`, `Expiry.dfy` | refund decisions, admission of transactions with fee bucketing, the expired-order job |

## How calls are modelled

Every remote call is answered by an oracle: `Ok`, `Err(applied, record)`, `Later` (pending or timed out) or
`WrongOtp` (code 449). `applied` is a lost acknowledgement: the call failed for its caller and took effect all the
same. `record` says whether the client returned a record together with its error. The clients in the repository
return nil when the call itself fails (`proto/service_transaction/service.pb.micro.go:288-296`,
`infrastructure/database_mgo/order/order_collection.go:94-150`); the order store returns the order together with its
error when nothing was modified. Several compensations dereference what they got, and a run that dereferences nil ends
`Panicked`. The theorems therefore say exactly which answers break a promise, and give the promise
without exception where records are returned.

Assumptions, all about code outside the model:

- Compensating calls succeed: Cancel yields FAILED from any state, Update yields PENDING, ReplaceByID stores, and a
  voucher reversal removes the trace id. The forward calls may fail in any way.
- A record returned with an error is neither PENDING nor FAILED.
- Runs on one order come one after the other; the service has no lock, and interleaved runs are not modelled.
- A coordinator's execution id is fresh. `Coordinator.ExecutionCoordinator.Play` also says what a reused id does.

## What the code does that a reader may not expect

- A nil record at ConfirmTransaction panics in most sagas and leaves order, transaction and voucher as they were
  (`Guarantees.BuyCardWithoutRecord`); the order is still open, and a retry confirms a second time
  (`Reopening.SecondConfirm`) or, on a redelivered bank message, buys the product a second time (`Redelivery.SecondDelivery`).
- A failure after delivery first writes VERIFYING, and the provider step's unguarded compensation then cancels the
  transaction and fails the order (`Guarantees.ExternalOutcome`).
- In BuyCard the provider-fee step fails the saga when the fee service fails, because its error is the step's named
  result; in UpdateBankStatus the same code sits in an inner block and never fails. The model follows the code.
- A voucher redeemed by such a run stays redeemed. A later delivery that does not find the transaction, or is rejected
  by the bank, fails the order with the voucher consumed (`Vouchers.StrandedByRedelivery`); a wrong OTP reverses it
  (`Vouchers.WrongOtpReverses`).
- A bank message with a code other than "200" writes SUCCESS on the way to FAILED (`Redelivery.RejectedPayment`).
- A lixi job that panics does not save the pot: the next run pays from the old one (`LixiLaws.DeathOverspends`).
- A lixi budget below -1 is not protected by its own guard (`LixiLaws.GuardExact`).
- The refund loop's `break` leaves only the switch, so the last fitting setting wins; a setting whose condition is
  neither LT nor LE accepts every amount; ConfirmRefundTrans does not look at the order's status, so a refund that was
  cancelled in one run can be confirmed in another (`Refund.RefundDesk.ConfirmAfterCancel`).
- An expired order is failed even if its transaction is past INITIAL and stays open (`Expiry.ExpiryAgrees`); a NAPAS
  order is set to SUCCESS even if its confirmation failed (`Expiry.IgnoredConfirm`).
- GetValidOrder lets CANCEL through.

## Model

| member | source | states |
|---|---|---|
| `Coordinator.LogStore.GetStepLogsToCompensate` | utils/saga/memory.go:25-37 | the backward scan returns the numbers of exactly the executed steps, latest first, or nothing for an unknown id |
| `Coordinator.LogStore.AppendLog` | utils/saga/memory.go:39-42 | one entry is added to one execution's log, all others unchanged |
| `Coordinator.StaleAfterUnwind` | utils/saga/coordinator.go:113-149 | compensating by log unwinds this run's steps first and only then whatever an earlier run under the same id left |
| `Coordinator.PlayedIsRun` | utils/saga/coordinator.go:43-102 | a log-driven run equals Run, plus, after a failure, the compensation of stale entries |
| `Coordinator.ExecutionCoordinator.Play` | utils/saga/coordinator.go:43-64 | result and state are those of Run under a fresh id, and Run followed by the stale compensations under a reused one; other executions' logs untouched |
| `Coordinator.ExecutionCoordinator.ExecStep` | utils/saga/coordinator.go:66-102 | after an abort no further step runs; otherwise the step is executed and logged, and a failing step is the first to be compensated |
| `Coordinator.ExecutionCoordinator.Abort` | utils/saga/coordinator.go:113-149 | every logged step is compensated once, latest first, until one panics; errors that compensations return are counted exactly and stop nothing |
| `Coordinator.ExecutionCoordinator.CompensateStep` | utils/saga/coordinator.go:174-189 | runs exactly this step's compensation and hands on its error, its success or its panic |
| `Application.Session.InitOrder` | application/service_order.go:26-43 | new order PENDING in memory and store; on error the captured order is the returned record or nil |
| `Application.Session.WriteBack` | application/service_order.go:45-67 | status is set in memory before the store is asked, the captured order becomes what the store returned, nil included |
| `Application.Session.FailedOrder` | application/service_order.go:103-107 | FAILED in memory and, if the order is stored, in the store; nil order panics |
| `Application.Session.VerifyingOrder` | application/service_order.go:109-114 | VERIFYING in memory and, if the order is stored, in the store; nil order panics |
| `Application.Session.GetValidOrder` | application/get_valid_order.go:10-32 | the stored order is returned exactly if it is readable, not VERIFYING, SUCCESS or FAILED, and not expired |
| `Application.Session.Cancel` | application/service_transaction.go:155-163 | the transaction is FAILED, in the captured record and in the store |
| `Application.Session.Park` | application/service_transaction.go:165-174 | the transaction is PENDING in both; a nil record panics |
| `Application.Session.Confirm` | application/service_transaction.go:176-185 | FINISH on success; on error the captured record may become nil while the store holds FINISH or not |
| `Application.Session.Execute` | application/buycard_orchestrator.go:58-345 | every step's forward function changes the captured variables and stores exactly as Exec, on which all theorems rest |
| `Application.Session.Compensate` | application/order_consumer.go:320-322 | every compensation changes captured variables and stores exactly as Undo; FAIL BANK STATUS, which changes nothing, is the only one to return an error |
| `Application.Session.SettleProvider` | application/buycard_orchestrator.go:239-255 | parks both records when pending, otherwise cancels and fails without a guard |
| `Application.Session.RejectBankFailure` | application/order_consumer.go:302-319 | on a code other than "200": Cancel, then SuccessOrder, then an error |
| `Application.Session.SettleOtp` | application/verify_otp_orchestrator.go:88-111 | parks on timeout, refuses an open transaction on a bank error, otherwise changes nothing |
| `Sagas.EverySagaShaped` | application/confirm_order.go:40-276 | all create-and-pay sagas share one shape: process, init, confirm, succeed in this order, optional steps in their places |
| `Sagas.StepsByName` | application/ibft_transfer_orchestrator.go:21-264 | each orchestrator's step list is the one read off a table of the sagas' peculiarities by name: leading check, order creation, voucher, product asked for, fee step, nil-safe confirmation, last compensation |
| `Sagas.Families` | application/topup_orchestrator.go:21-262 | which sagas have a provider or bank step, take a voucher, and create their order |
| `Settlement.RunOutcome` | application/buycard_orchestrator.go:58-345 | first failing step and its answer determine exit, both statuses, voucher and the full list of calls, over every answer sequence |
| `Settlement.UnwindSettled` | application/buycard_orchestrator.go:66-189 | compensations keep a settled pair settled; only a non-pending external step turns a parked pair into a refused one |
| `Guarantees.Agreement` | application/paid_bill_orchestrator.go:35-330 | order and transaction agree at the end exactly if the first failure is not one of the listed tearing answers |
| `Guarantees.AgreementWithRecords` | application/cash_out_orchestrator.go:21-252 | if failing calls return records, every run ends in an agreeing pair and never panics, lost acknowledgements included; only an InitOrder without compensation must not have stored its order |
| `Guarantees.NamedAgreement` | application/ibft_transfer_orchestrator.go:21-264 | the exact agreement condition for each named saga |
| `Guarantees.ExternalOutcome` | application/fund_wal2bank_orchestrator.go:20-236 | provider and bank family: final pair and number of Cancel, Update, FAILED and VERIFYING calls for failure before, at and after the external step |
| `Guarantees.InternalWrites` | application/static_qr_orchestrator.go:36-192 | FAILED and VERIFYING written at most once in all, and never FAILED at the end once Confirm was attempted, panics included |
| `Guarantees.NamedInternalWrites` | application/fund_wal2wal_orchestrator.go:46-206 | the same for each internal saga by name |
| `Guarantees.VoucherConservation` | application/topup_orchestrator.go:70-101 | whether or not a voucher was held before: held afterwards exactly if held or given and the run met no failure or panicked at or after Confirm, or if held before and the run failed above every voucher step |
| `Guarantees.NamedVoucher` | application/paid_bill_orchestrator.go:130-161 | the same for each named saga |
| `Products.RunAsks` | application/buycard_orchestrator.go:199-255 | any run asks for exactly as many products as it makes deliveries, each one that a step of it stands for |
| `Products.NamedDelivery` | application/cash_out_orchestrator.go:140-200 | by name: the saga's product at most once and nothing else, and certainly by the time ConfirmTransaction is attempted |
| `Products.NamedSuccess` | application/fund_wal2bank_orchestrator.go:20-236 | by name: pair, complete call list and product of every run that returns |
| `Guarantees.BuyCardWithoutRecord` | application/buycard_orchestrator.go:297-316 | a nil record at Confirm: panic, order PROCESSING, transaction PROCESSING, voucher held |
| `Gated.ClosedIsAbsorbing` | application/get_valid_order.go:10-32 | a final or expired order turns every operation away with nothing called and nothing changed |
| `Gated.RunConfirmsOnce` | application/verify_otp_orchestrator.go:17-161 | a run attempts Confirm at most once and, if it does not panic, leaves the order final when it did |
| `Gated.HandleConfirmsOnce` | application/update_credit_payment_orchestrator.go:15-155 | the same for every gated operation |
| `Gated.NothingAfterClosing` | application/get_valid_order.go:10-32 | no sequence of runs changes a closed order or confirms |
| `Reaching.HaltIsFirstStop` | application/verify_otp_orchestrator.go:17-161 | the step at which a run on an existing order halts is the first that its answers and the stored records stop |
| `Reopening.ReopensExactly` | application/confirm_order.go:232-276 | a run confirms and leaves the order open exactly if it is let in and its first stop is a confirmation that is not nil-safe, or a last write that was not applied, failing without a record |
| `Reopening.AtMostOneConfirm` | application/confirm_order.go:19-276 | over any sequence of runs on one order, ConfirmTransaction is attempted at most once plus once per reopening run |
| `Reopening.OneConfirmExactly` | application/get_valid_order.go:10-32 | once a run has attempted it, no later run ever does, whatever the runs, exactly if that run did not reopen |
| `Reopening.SecondConfirm` | application/verify_otp_orchestrator.go:119-135 | a nil record at the confirmation, then an operation that confirms: two attempts, so the bound is met |
| `Gated.RunTally` | application/order_consumer.go:246-619 | no run makes a committing call more often than it has steps for it |
| `Records.NoPanic` | application/confirm_order.go:40-276 | a gated run whose failing calls return records never panics |
| `Reopening.OneConfirmWithRecords` | application/verify_otp_orchestrator.go:17-161 | with records, ConfirmTransaction is attempted at most once over any sequence of runs |
| `Operations.PlaySaga` | utils/saga/coordinator.go:43-64 | a named saga played in place: agreement and voucher exactly under their conditions; if it returns, SUCCESS with FINISH and the full call list by name; its product is asked for at most once, no other is, and it has been by the time ConfirmTransaction is attempted |
| `Operations.Serve` | application/get_valid_order.go:10-32 | each operation in place does what the run-level model says, saga runs through the coordinator included |
| `Operations.ConfirmOrder` | application/confirm_order.go:19-276 | gate, then the saga on the stored order |
| `Operations.UpdateCreditPayment` | application/update_credit_payment_orchestrator.go:15-155 | exit, pair and calls by request status and answers: FAILED cancels an open transaction and fails the order, VERIFYING parks both unless the bank reports success, SUCCESS by the two last answers, any other status nothing; behind a closed gate nothing |
| `Finals.CreditOutcome` | application/update_credit_payment_orchestrator.go:35-155 | the same as a law of the run-level model |
| `Finals.RunEnds` | application/verify_otp_orchestrator.go:119-161 | for every pair of answers of ConfirmTransaction and the last write: exit, pair and calls |
| `Finals.VerifyOtpOutcome` | application/verify_otp_orchestrator.go:17-161 | VerifyOTP for all answers: failing lookups change nothing, the OTP check as stated, then the last two steps |
| `Operations.OrderCancel` | application/cancel_order.go:12-32 | through the gate CANCEL is stored, and the transaction is cancelled exactly if the write went through, it is found and its state is INITIAL; otherwise nothing changes |
| `Operations.OrderUpdate` | application/update_order.go:10-28 | through the gate the requested status is stored; the transaction is never touched |
| `BankStatus.DeliveryOutcome` | application/order_consumer.go:246-619 | the exact (order, transaction) pair and exit of a delivery, for each of the ten steps it can halt at and each answer there |
| `BankStatus.UnwindShuts` | application/order_consumer.go:281-293 | FIND_TRANS's compensation always leaves the order FAILED or VERIFYING in memory and store |
| `Redelivery.DeliveryCloses` | application/order_consumer.go:246-293 | the exact deliveries after which the gate is closed |
| `Redelivery.Idempotent` | infrastructure/rabbitmq/connection_rabbitmq.go:226-229 | delivering n times leaves the same order, transaction, voucher ledger and log of calls as once, whatever later answers, exactly if the order was closed before or the first delivery did not leave it open |
| `Redelivery.ProviderOverDeliveries` | application/order_consumer.go:366-575 | over any deliveries of a message the provider is called at most once, plus once per delivery that got to the confirmation and left the order open |
| `Redelivery.OneCardExactly` | application/order_consumer.go:582-619 | after a provider call no redelivery makes another, whatever its answers, exactly if the first does not repeat |
| `Redelivery.SecondDelivery` | application/order_consumer.go:366-399 | a repeating delivery followed by one answered Ok buys the product twice |
| `Vouchers.GatedVoucher` | application/order_consumer.go:329-357 | sagas on an existing order and transaction, with or without a voucher held before: unchanged if stopped ahead of the voucher step, reversed if stopped between it and the confirmation, and otherwise held exactly if nothing stopped the run or a record was missing |
| `Vouchers.BankStatusVoucher` | application/order_consumer.go:329-357 | the same for a bank message, redelivered or not, by the step that stops it |
| `Vouchers.ConfirmOrderVoucher` | application/confirm_order.go:70-98 | the same for ConfirmOrder on any order, whatever an earlier run left of voucher and transaction |
| `Vouchers.BankStrands` | application/order_consumer.go:270-323 | a delivery ends FAILED with the voucher consumed exactly if it was held and the delivery stops between the gate and the voucher step |
| `Vouchers.ConfirmOrderStrands` | application/confirm_order.go:40-68 | ConfirmOrder does exactly if it was held and the first write fails with a record |
| `Vouchers.BuyCardOtpNeverStrands` | application/buycard_with_token_orchestrator.go:30-158 | BuyCardWithToken with an OTP never does |
| `Vouchers.StrandedByRedelivery` | application/order_consumer.go:246-357 | a first delivery that panics at the confirmation and a second that does not find the transaction strand the voucher |
| `Vouchers.BuyCardOtpVoucher` | application/buycard_with_token_orchestrator.go:74-104 | the same for BuyCardWithToken with an OTP |
| `Redelivery.OneProvider` | application/order_consumer.go:366-575 | at most one provider call for any sub order type, none for a type without product |
| `Redelivery.Dispatch` | application/order_consumer.go:366-575 | the nine sub order types and the product each buys; at most one product is ever asked for, and nothing else; once nothing stops the delivery before the confirmation, exactly that one |
| `Redelivery.PendingProvider` | application/order_consumer.go:400-417 | a pending provider ends (VERIFYING, PENDING); the complete call list has no Cancel and no Confirm |
| `Redelivery.RejectedPayment` | application/order_consumer.go:281-323 | code other than "200": FAILED, nothing confirmed, delivered or redeemed, exact Cancel and SUCCESS writes, transaction FAILED or as stated |
| `Otp.OtpReplyClasses` | infrastructure/service/bank_service/bank_gw.go:59-67 | code by code: 2xx accepted, 102 pending, 449 a wrong OTP, anything else an error, 449 being in the 4xx failure class and yet no error |
| `Otp.VerifyOtpRefused` | application/verify_otp_orchestrator.go:62-112 | wrong OTP changes nothing, timeout parks both, a bank error fails the order exactly if the transaction was open |
| `Otp.BuyCardOtpRefused` | application/buycard_with_token_orchestrator.go:74-158 | the same, with the voucher reversed |
| `Otp.WrongOtpStutters` | application/verify_otp_orchestrator.go:81-110 | a 449 attempt, whatever its other answers, leaves stored order, transaction and voucher as they were exactly if it is VerifyOTP, is turned away, or no voucher was held before |
| `Otp.WrongAttemptsStutter` | application/buycard_with_token_orchestrator.go:106-158 | any number of wrong attempts leaves everything as it was exactly if each alone does, and otherwise only reverses the voucher |
| `Otp.WrongAttemptsDropOut` | application/verify_otp_orchestrator.go:62-112 | wrong attempts before other runs drop out, up to that reversal |
| `Vouchers.WrongOtpReverses` | application/buycard_with_token_orchestrator.go:94-99 | a run that panics at the confirmation holds the voucher, and a wrong OTP after it reverses it |
| `TokenCard.CardOutcome` | application/buycard_with_token_orchestrator.go:30-416 | BuyCardWithToken with an OTP: exit and exact (order, transaction) pair for each of the eight steps it can stop at and each answer there |
| `Providers.DeliversOpenExactly` | application/confirm_order.go:185-232 | a gated run calls a provider or bank and leaves the order open exactly if it reopens and an external step applies |
| `Providers.EventProducts` | application/confirm_order.go:185-232 | what each other gated operation asks for: a card, the funding of an open wallet, or nothing |
| `Providers.DeliveriesOverRuns` | application/buycard_with_token_orchestrator.go:265-325 | over any sequence of gated runs on one order, providers and banks are called at most once, plus once per such run |
| `Providers.OneDeliveryExactly` | application/buycard_with_token_orchestrator.go:265-416 | after such a call no later run ever makes another, whatever the runs, exactly if the run did not reopen |
| `Lixi.OrderApplication.LixiOrchestrator` | application/lixi_orchestrator.go:12-139 | pays out through the coordinator; a pair with an order is turned away |
| `Lixi.OrderApplication.Allocate` | application/job_lixi.go:15-106 | fields, world, payouts and ending of the phone loop with its labelled break are those of Serve |
| `Lixi.OrderApplication.JobLixi` | application/job_lixi.go:11-110 | lixis are served in turn, exactly those served to the end are saved, a panic ends the job |
| `LixiLaws.GuardExact` | application/job_lixi.go:65-67 | from pots within the budget, the wrapped guard keeps AmountUsed within Amount for all 64-bit values exactly if Amount is at least -1 |
| `LixiLaws.GuardKeepsBudget` | application/job_lixi.go:92-96 | a payout that passes the guard lands within the budget and makes AmountRemain exact, whatever the pot held |
| `LixiLaws.BudgetSafety` | application/job_lixi.go:14-107 | for all phones, draws (negative ones too) and answers: AmountUsed and NumberScan stay bounded, NumberScan grows by the number and AmountUsed by the 64-bit sum of the payouts without error, and AmountRemain = Amount - AmountUsed |
| `LixiLaws.PlainPayout` | application/job_lixi.go:92-96 | a payout past the guard is added without wrapping exactly if the sum is not below the 64-bit range |
| `LixiLaws.PlainSum` | application/job_lixi.go:14-107 | with offers that are not negative, AmountUsed grows by the plain sum of the payouts, and that stays within Amount |
| `LixiLaws.FirstVisitServed` | application/job_lixi.go:22-98 | a phone with a user and a free place: beyond the budget the job stops, otherwise exactly the draw or FixAmount is paid, nothing if the payout fails, and a panic ends the job |
| `LixiLaws.FirstVisitSkipped` | application/job_lixi.go:18-27 | a phone without user, place or draw is passed over |
| `LixiLaws.RandomPaysDraws` | application/job_lixi.go:25-61 | a RANDOM lixi pays the draws, in order, of a subsequence of its visits |
| `LixiLaws.FixedPaysFix` | application/job_lixi.go:63-96 | a FIXED lixi pays FixAmount every time, any other method nothing |
| `LixiLaws.BatchInTurn` | application/job_lixi.go:12-14 | every lixi is served in turn on the world its predecessor left, until one dies |
| `LixiLaws.SavedInTurn` | application/job_lixi.go:105-106 | the pots saved are those of the lixis served to the end |
| `LixiLaws.FixedExact` | application/job_lixi.go:63-96 | the number of FIXED payouts is the minimum of phones, free places and whole amounts left, except where the guard's difference wraps |
| `LixiLaws.PayoutInits` | application/lixi_orchestrator.go:18-95 | a payout makes InitTransaction at most once, and then its order is stored |
| `LixiLaws.DuplicateRejected` | application/service_order.go:19-24 | a phone whose user already has an order changes no order, transaction or budget field: the job goes on as if it were not listed, or stops at the budget |
| `LixiLaws.OncePerUser` | application/service_order.go:19-24 | over any jobs and duplicate phones, at most one InitTransaction per user and lixi, plus one per unreadable check |
| `LixiLaws.UnreadableInitsAgain` | application/service_order.go:20-23 | an unreadable check makes another InitTransaction for a pair that has one, so the bound of OncePerUser is met |
| `LixiLaws.PayoutPanics` | application/lixi_orchestrator.go:43-139 | a payout panics exactly if it is no recognised duplicate and its first failing answer lacks a record a compensation needs |
| `LixiLaws.DiesExactly` | application/job_lixi.go:16-103 | the job dies exactly at a visit that is reached, gets a payout, is no duplicate and has such answers |
| `LixiLaws.RunsConserve` | application/job_lixi.go:105-106 | over any runs the saved pot accounts for everything ever paid exactly if no run died after it had paid |
| `LixiLaws.RunsWithinBudget` | application/job_lixi.go:105-106 | every saved pot is within the budget and the head count |
| `LixiLaws.RunsConserveWithoutKills` | application/job_lixi.go:14-107 | if no visit has killing answers, the saved pot stays within bounds and accounts for everything paid |
| `LixiLaws.RunsStayWithinBudget` | application/job_lixi.go:14-107 | then, with offers that are not negative, all runs together pay no more than the budget |
| `LixiLaws.RecordsNeverKill` | application/lixi_orchestrator.go:43-139 | answers that come with records never kill a payout |
| `LixiLaws.DeathOverspends` | application/job_lixi.go:79-106 | a panic between payouts: two runs pay 30 from a budget of 20 |
| `Int64.SignOfDifference` | application/refund_transaction.go:198-206 | when the sign test on a 64-bit difference means what it says |
| `Refund.ChooseSetting` | application/refund_transaction.go:309-340 | the last fitting setting is chosen; the choice is empty exactly if none fits |
| `Refund.Wait` | application/refund_transaction.go:344-373 | the group reports an error exactly if some scheduled check fails |
| `Refund.AnyOrder` | application/refund_transaction.go:344-373 | the verdict is the same in every order of the three checks, and is acceptance under LT and LE |
| `Refund.NeverBoth` | application/refund_transaction.go:134-429 | Confirm and Cancel are never both due, and a bank refusal means Cancel |
| `Refund.CoversExactly` | application/refund_transaction.go:198-206 | where the difference fits into 64 bits, settled transactions need the cash wallet and others the revenue wallet to cover the amount |
| `Refund.OperatorRefund` | application/refund_transaction.go:187-285 | an operator's refund is confirmed exactly if it is sound, not settled and, through the API, accepted by the bank |
| `Refund.MerchantRefund` | application/refund_transaction.go:187-409 | a merchant's refund is confirmed exactly if it is sound, configured for the transaction, and the last ACTIVE, AUTO, source-of-fund, PAID-or-UNPAID setting accepts the amount and, for the API, the bank does |
| `Refund.RefundDesk.InitRefundTrans` | application/refund_transaction.go:21-61 | exactly which of init, bank, Confirm and Cancel are sent, exactly when the order ends SUCCESS, FAILED, PROCESSING or never stored, and exactly when an error is reported |
| `Refund.RefundDesk.CheckTransactionCondition` | application/refund_transaction.go:134-429 | the same from the initiated refund on |
| `Refund.RefundDesk.Execute` | application/refund_transaction.go:375-421 | the bank is asked first; refused means Cancel only, otherwise Confirm only, and the order follows the answer |
| `Refund.RefundDesk.ConfirmRefundTrans` | application/refund_transaction.go:63-119 | Confirm or Cancel but not both; the order changes only with a Confirm, to SUCCESS exactly if accepted |
| `Refund.RefundDesk.ConfirmAfterCancel` | application/refund_transaction.go:63-119 | two runs on one refund: the first cancels, the second confirms and ends SUCCESS |
| `Refund.RefundDesk.CancelRefundTrans` | application/refund_transaction.go:121-132 | Cancel only, order untouched |
| `Admission.TransactionRequest.Init` | application/service_transaction.go:18-153 | sent exactly if no check objects, a rejection names the first objection; PROCESSING/INITIAL, whole fee in one bucket, preset fees kept, quota user with its flags |
| `Admission.TransactionRequest.SelectUser` | application/service_transaction.go:65-76 | the payee's quota counts for CASHIN, OPENWALLET_CASHIN and LIXI, the payer's otherwise |
| `Admission.ClearedExactly` | application/service_transaction.go:19-63 | a party is in the way exactly if its profile was found without KYC or, outside NAPAS, without any bank link ever |
| `Admission.TransactionRequest.CheckPayer` | application/service_transaction.go:19-39 | objection exactly on missing KYC or link of a found payer; flags follow the profile |
| `Admission.TransactionRequest.CheckPayee` | application/service_transaction.go:41-63 | the same for the payee, whose link flag is set before the checks |
| `Admission.TransactionRequest.ChargeMerchant` | application/service_transaction.go:97-138 | fee wholly in one bucket, preset fees kept, only VA survives a failing fee service |
| `Expiry.Stores.Work` | application/job_expired_order.go:18-85 | one order and its transaction end as their own record and answers say, nothing else is touched; an order missing from the store cancels nothing |
| `Expiry.Stores.CancelExpiredOrders` | application/job_expired_order.go:17-87 | in a batch of distinct orders each result depends on its own record and answers only: FAILED and expired if the bank is not asked; otherwise FAILED without an answer or on 4xx, SUCCESS on 2xx, unchanged on anything else; every transaction cancelled, confirmed or left exactly as stated |
| `Expiry.ExpiryAgrees` | application/job_expired_order.go:57-81 | such an order and its transaction both end FAILED exactly if the transaction was FAILED or INITIAL with an accepted Cancel |
| `Expiry.IgnoredConfirm` | application/job_expired_order.go:42-45 | SUCCESS is written whether or not the confirmation was accepted |

## Left out

- BuyCardWithToken without an OTP: the by-pass branch initiates the payment before the saga and adds another shape of the same steps.
- CashIn, CashInNAPAS, NapasInitCashIn, NapasInitLink, ProcessCreditPayment, PayInternationalCard: irregular or empty compensations, outside the agreement theorems.
- The other WithToken sagas and InitPayByToken: the shape of BuyCardWithToken again.
- Virtual account management, queries, presenters, notifications, Kafka, MQTT and Telegram messages: nothing feeds back into an order.
- Failing compensating calls: with them no saga of this design can promise agreement.
- Interleaved runs on one order: the code has no mutual exclusion, so runs are sequential.
- Coordinator step payloads and AddStep's reflection checks: every step here returns only an error.
- Timestamps, fail reasons, bank trace ids, device and merchant metadata: no effect on what is proved.
- Application.Session.RejectBankFailure: the SuccessOrder write after an accepted Cancel is taken to be stored; whether it is or not, FIND_TRANS's compensation overwrites it with FAILED.
- Lixi.OrderApplication.LixiOrchestrator: the session of a payout is new, so what one payout leaves behind for another is only the stored pair and the count of InitTransaction calls.
- LixiLaws.PlainSum: for negative offers the sum is stated payout by payout (LixiLaws.PlainPayout) and modulo 2^64 (LixiLaws.BudgetSafety), because a sum below the 64-bit range does wrap.
- LixiLaws.RunsConserve: UpdateOne is taken to succeed; a save that fails loses the account just as a panic does.
- Refund.RefundDesk.InitRefundTrans: lost acknowledgements are not modelled; a call that fails has no effect.
- Expiry.Stores.CancelExpiredOrders: the batch is worked off on the stores as they are; changes made by other processes between reading and writing are not modelled.
