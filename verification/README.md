# AreYouOK: a verified model of its state machines

AreYouOK sends alerts to a person's emergency contacts when the person does not check in, or does not
return from a journey, in time. Database, Redis and RabbitMQ are only the carrier; what has to be right are
the state machines on top of them. This project models these machines in Dafny and proves what they keep
over every run, and, where a promise is false of the code, exactly when it holds.

| files | what they model |
|---|---|
| `Quota`, `Overdraft` | the SMS wallet and its ledger; `PreDeduct` without its lock |
| `Delivery`, `DeliverySafety`, `DeliveryFaults` | paid delivery as a transition system: any number of workers, message copies with retry counts, Redis marks, tasks, wallets, crashes |
| `Notification`, `NotificationCalls`, `DeliveryRefinement` | `SendSMS` and its handler in the service's own sequential form, and that an undisturbed worker of the transition system does what that handler does and nothing else, around which the consumer loop does the rest |
| `MessageQueue` | the ack, retry and reject loop for any handler |
| `Journey`, `JourneyCalls`, `JourneySafety`, `JourneyTiming`, `JourneyRace` | journeys, delayed messages, the window scan, the overdue scan and the two processors, over a clock; and timeouts whose read and write are separate steps |
| `RateLimit` | the sliding-window limiter against the full request history |
| `CheckInTimeout`, `CheckInCalls`, `CheckInSafety`, `CheckInReminder`, `ReminderFilter`, `Decimal` | the three check-in batches |
| `CheckInRace`, `ReminderRace` | timeout and reminder batches whose read and write, or work and commit, are separate steps |
| `Accounts`, `AccountCalls`, `Contacts`, `ContactCalls`, `ContactBook` | logins, waitlist, sign-up bonus, contact lists |
| `Wrappers` | the optional value |

Each class has the fields that the service updates and its methods do so step by step. A method is proved
equal to a function of the old state, and the theorems are about runs of those functions. The modules named
`...Calls` say of the tables alone, independently of how those functions decide, when exactly each call
succeeds, refuses or does nothing, and what it leaves. Verify with `dafny verify dfyconfig.toml`.

## Failure model and hypotheses

- Delivery: one step is one Redis command, one transaction, one provider call or one broker command. A worker
  may crash between any two steps, its copy is then delivered again and its mark stays until it expires; a
  republish may fail; the task update after a committed `ConfirmDeduction` may fail, because
  `ConfirmDeduction` opens its own transaction. Redis commands and other statements succeed.
- A mark in the delivery model can expire at any moment at which nobody holds it. `CrashAndExpiryResend` uses
  this: the copy that the broker delivers again after a crash must stay undelivered for the 24 hours that the
  mark lives. Delivered earlier it is skipped, and the message is lost instead (`CrashLosesMessage`).
- Journeys and check-in batches: one service call, scan or message handling is one step with one reading of
  the clock. `JourneyRace` and `CheckInRace` take the two timeouts apart into their read and their write,
  `ReminderRace` takes a reminder batch apart into its work and its commit.
- The broker's clock and the service's clock agree. Delays are cut to whole seconds as in the code.
- Rate limiter: strictly increasing request times, exact scores, one key.
- Batches of check-in reminders: the promise of one reminder a day needs date <= now < date + 1 day (UTC), and
  `RepeatWritesAgainIff` shows that it is lost without this.

## Where the code and its comments or names disagree

The model follows the code.

- `internal/service/quota.go:42` announces a pessimistic lock; the query has no lock clause (`Overdraft`).
- `internal/repository/query/quota_transactions.gen.go:209-221` is called a balance; it is available minus used,
  since a confirmed cent is deducted twice in the ledger, once when reserved and once when confirmed.
- A grant whose reason is `grant_refund`, which `GrantQuota` does not exclude, makes ledger and wallet disagree
  (`Quota.LedgerKeptIffHonest`). Nothing calls `GrantQuota` at present.
- A failed task update, or a crash together with the expiry of a mark, can make a task be sent twice, and a crash
  can lose a message. `DeliveryFaults.SentOnceIff` and `NeverLostIff` say that these faults are exactly the ones
  that matter.
- No code writes the task status `processing`, so the guard against it never fires.
- `ProcessTimeoutBatch` alerts for users who have checked in (`CheckInSafety.DoneDoesNotProtect`). It would alert
  a user as often as its list names the user (`CheckInSafety.AlertedOnceIffListedOnce`); its only publisher,
  `internal/schedule/checkin_scheduler.go:264-268`, takes one id from each user row, and ids are unique, so the
  shipped lists name nobody twice.
- `ProcessTimeout` writes a journey that it has read earlier. Between the two the user can report back and the
  contacts are alerted nevertheless (`JourneyRace.ReportedBackYetAlerted`), and n processors can alert n times
  (`JourneyRace.OnceIffOneProcessor`).
- Two processors whose timeout batches, or whose reminder transactions, overlap can alert or remind twice; one cannot
  (`CheckInRace.OnceIffOneProcessor`, `ReminderRace.OnceIffOneProcessor`). The marks of the message ids keep one
  message from being processed twice at once, not two messages about one user.
- The window scan's "scheduled" mark is not cleared by a reschedule, so a scan that sees a journey may publish
  nothing (`JourneyTiming.RescheduleOutlivesMark`); when exactly it does is `WindowScanAnnouncesIff`.
- The limit of five reminders a month reads the clock anew, so a batch that runs across the end of a month can
  go over it (`CheckInReminder.SixthIffMonthTurned`, with the run `SixInAMonth`).
- Every prefix that the rate limiters are mounted with (`internal/router/router.go:22`, `:28`, `:81`) has one
  limiter, and on such keys the limits hold (`RateLimit.MountedLimitersHold`). The limiter of the user settings
  would share the journey limiter's prefix with a shorter window, but its route has it commented out
  (`internal/router/router.go:47`); `RateLimit` says exactly what sharing would cost. The comments beside the
  limits name other numbers than the limits.
- A user on the waitlist who logs in is let in whatever the capacity (`Accounts.CapacityStopsOnlyNewcomers`).

## Model

| member | source | states |
|---|---|---|
| Quota.WalletTable.PreDeduct | internal/service/quota.go:38-105 | a sufficient balance moves from available to frozen with one ledger row; otherwise nothing changes, and the wallet row created on the way is rolled back |
| Quota.WalletTable.ConfirmDeduction | internal/service/quota.go:111-162 | frozen cents become used with one ledger row, unless too little is frozen or there is no wallet |
| Quota.WalletTable.Refund | internal/service/quota.go:167-220 | frozen cents become available with a refund row, under the same two guards |
| Quota.WalletTable.GrantQuota | internal/service/quota.go:247-308 | new cents become available, creating the wallet if needed, with a row of the caller's reason |
| Quota.WalletTable.GetWallet | internal/service/quota.go:223-244 | the columns, or zeroes when there is no wallet |
| Quota.ReplayIsSums | internal/repository/query/quota_transactions.gen.go:209-221 | each replayed column is a sum over kinds and reasons of ledger rows, and the grant-minus-deduct sum is available minus used |
| Quota.BalanceOfRow | internal/service/quota.go:79-92 | every row's balance_after is the available amount replayed up to that row |
| Quota.LedgerRebuildsWallet | internal/service/quota.go:38-308 | after any run of wallet operations replaying the ledger gives the wallet's four columns and every recorded balance, and the SUM query gives available minus used |
| Quota.LedgerKeptIffHonest | internal/service/quota.go:284-296 | an operation keeps ledger and wallet in step exactly when it is not a non-zero grant under the refund reason |
| Quota.MoneyIsConserved | internal/service/quota.go:38-308 | available + frozen + used = total granted after any run, whatever the amounts |
| Quota.NothingGoesNegative | internal/service/quota.go:38-308 | with serial transactions and amounts that are not negative no column goes negative |
| Quota.ServesToTheLastCent | internal/service/quota.go:38-220 | of k equal deductions, confirmations or refunds in a row exactly the greatest number that the source column covers go through, to the last cent; each moves its amount and adds one row, the others change nothing |
| Overdraft.OverdraftBound | internal/service/quota.go:42-78 | with reads and relative writes of n callers interleaved, money is conserved, the ledger's amounts still rebuild the wallet, and available >= -amount * (n - 1) |
| Overdraft.OverdraftReached | internal/service/quota.go:42-78 | for every n there is an interleaving that overdraws by exactly amount * (n - 1) |
| Overdraft.SafeIffOneCaller | internal/service/quota.go:42-78 | from every start state, whatever the wallet holds, no interleaving overdraws it exactly when there is one caller |
| Overdraft.AloneIsPreDeduct | internal/service/quota.go:42-105 | read and write with nothing in between are PreDeduct |
| DeliverySafety.InvAlways | internal/queue/consumer.go:729-895 | the invariant of locks, tasks, money, sends and faults holds after every run of any number of workers |
| DeliverySafety.SendsBounded | internal/service/notification.go:76-88 | over any workers, duplicates, retries and faults, a task is accepted by the provider at most once more often than its mark was reset after a fault, at most once more often than a fault struck between an accepted send and its record, and charged at most as often as sent |
| DeliverySafety.AtMostOneSend | internal/cache/checkin.go:101-129 | without such a reset, crashes anywhere included, the provider accepts at most one send per task |
| DeliverySafety.FrozenIsOutstanding | internal/service/notification.go:98-378 | a wallet's frozen cents are five times the runs that reserved and have not settled, plus the reservations of crashed runs |
| DeliverySafety.SettlementNeverRefused | internal/service/quota.go:122-125 | a run that reserved is never refused by the frozen-amount guard of ConfirmDeduction or Refund |
| DeliverySafety.UsedIsSent | internal/service/notification.go:305-366 | used cents are at most five per accepted send; without faults they are five per task recorded as sent, plus five per charge about to be recorded |
| DeliverySafety.SuccessIsAbsorbing | internal/service/notification.go:76-81 | a task in status success stays there in every continuation of every run |
| DeliverySafety.NoSilentLoss | storage/mq/consumer.go:96-164 | every published message is settled, still carried by a copy that will be handled, or rejected after its last retry, unless a worker crashed while holding its mark |
| DeliverySafety.LedgersAlwaysRight | internal/service/quota.go:79-92 | in every interleaving and under every fault each wallet's ledger rebuilds it |
| DeliveryFaults.CrashAndExpiryResend | internal/service/notification.go:230-312 | from any sound state in which a worker has sent and not confirmed, a continuation whose only faults are crashes and expiring marks leads to a second send |
| DeliveryFaults.CrashResendsInARun | internal/service/notification.go:230-312 | from any idle start with a solvent user and a new task there is a run with no other faults in which the task is accepted twice |
| DeliveryFaults.FailedRecordResends | internal/service/notification.go:307-376 | from any sound state after a committed charge, a continuation whose only fault is a failed task update leads to a second send of the same task |
| DeliveryFaults.FailedRecordResendsInARun | internal/service/notification.go:307-376 | and such a state is reached: a run from any idle start with no other fault in which the task is accepted twice |
| DeliveryFaults.CrashLosesMessage | internal/queue/consumer.go:751-768 | a continuation whose only fault is the crash of the mark's holder lets the redelivered copy be skipped, so the only copy can vanish unsettled |
| DeliveryFaults.CrashLosesInARun | internal/queue/consumer.go:751-768 | a run from any idle start, with crashes as its only faults, after which a published message is neither carried, settled nor rejected |
| DeliveryFaults.SentOnceIff | internal/service/notification.go:76-376 | for every class of faults: in every run with no other faults the provider accepts a task at most once, exactly if no task update fails after a charge and crashes and expiring marks do not come together |
| DeliveryFaults.NeverLostIff | internal/queue/consumer.go:729-895 | for every class of faults: no run with no other faults loses the message of a task, exactly if workers do not crash |
| Notification.FindContactPhone | internal/service/notification.go:407-431 | the phone is that of the first contact with the hash, and none if that contact's cipher is unusable or nobody has the hash |
| Notification.ResolvePhone | internal/service/notification.go:386-405 | a message or task that names a contact resolves to that contact only, the message's hash first; otherwise to the user's own phone |
| Notification.RefundUndoesReserve | internal/service/quota.go:167-220 | a refund of a reservation restores the columns and leaves two more ledger rows whose sum is zero |
| Notification.SettledExactlyOnce | internal/service/notification.go:54-379 | one call leaves no cents frozen, takes five exactly when the provider accepted, then records the task as sent, replies nil exactly then or when it was sent before, and touches no other task or wallet |
| Notification.Notifier.SendSMS | internal/service/notification.go:54-379 | the method's new tables and reply are those of the specification AfterCall, on every exit path |
| Notification.SmsConsumer.TryMarkProcessing | internal/cache/checkin.go:101-113 | SETNX: succeeds exactly if the key was absent, and then sets it |
| Notification.SmsConsumer.Handle | internal/queue/consumer.go:731-886 | the message's mark survives exactly if the handler returns nil, a check-in reminder is stamped exactly if SendSMS returned nil, and tables and reply are those of Handled |
| NotificationCalls.CallAnswers | internal/service/notification.go:54-379 | nil exactly if the provider accepts now or the task was sent before; another try exactly if the task is being sent, the template is missing, its parameters do not fit or the provider is busy; the provider is asked exactly for an open task with five cents; the task ends as success, failure or as it was |
| NotificationCalls.AttemptsAreAnswers | internal/service/notification.go:450-495 | an attempt row exactly for an answer of the provider about a message to a contact, with the acceptance and the cents that the payer lost |
| NotificationCalls.HandlerAnswers | internal/queue/consumer.go:731-886 | duplicate exactly for a marked message; nil exactly if it is read, not marked, names a task and no other try may help, and exactly then the mark stays |
| NotificationCalls.StampedIff | internal/queue/consumer.go:862-881 | the check-in is stamped exactly for a reminder message that is read, not marked, names a task and is accepted now or was before; never for a skipped one |
| NotificationCalls.StampedAtMostOnce | internal/queue/consumer.go:749-881 | while no mark expires, any sequence of copies with any fates stamps a check-in at most once, and only for a message that was accepted |
| DeliveryRefinement.UndisturbedWorkerIsHandler | internal/queue/consumer.go:731-886 | from every state with sound money and for every fate of the message, a worker alone can reach exactly the tables, marks and reply of the sequential handler, and every run that fits the fate ends there |
| DeliveryRefinement.EveryHandlerRunIsHandler | internal/queue/consumer.go:731-886 | every fault-free run of a worker alone from its call to the end of the handler ends in what the sequential handler computes for some fate |
| DeliveryRefinement.LeavingIsTheLoop | storage/mq/consumer.go:96-164 | a worker's bounce or ack is the consumer loop's turn: the same copies go back with the same counts, and the message is rejected exactly if the loop rejects it |
| MessageQueue.Channel.Consume | storage/mq/consumer.go:35-166 | the loop disposes of each delivery as Run says: ack, republish with count + 1, requeue if that fails, reject at the limit |
| MessageQueue.OneDelivery | storage/mq/consumer.go:96-164 | a copy is acknowledged exactly if the handler returns nil or the skip error; after an error it is rejected exactly at the limit, republished with the next count exactly below it, or requeued unchanged if that fails |
| MessageQueue.CountSurvivesRetyping | storage/mq/consumer.go:169-187 | a fresh message has no count, a republished one keeps it under each integer type |
| MessageQueue.TurnSpendsBudget | storage/mq/consumer.go:109-161 | every delivery except one whose republish fails lowers the sum of (max + 1 - retryCount) over the copies |
| MessageQueue.QueueDrains | storage/mq/consumer.go:109-161 | while republishing works and nothing is published, the queue is empty after at most that sum of deliveries |
| MessageQueue.OnePublishedMessage | storage/mq/consumer.go:96-164 | a message published once is waiting, acknowledged or rejected, only one of these; rejected exactly after four failed deliveries; it reaches its handler at most four times, failed republishes apart |
| MessageQueue.OutcomeDecides | storage/mq/consumer.go:96-164 | over any run a message published once is acknowledged as often as a delivery ended without an error, which is at most once; rejected exactly at its fourth error, failed republishes apart; republished or requeued exactly after every other error |
| ContactBook.NotifiesTheFirstThree | internal/service/journey.go:734-744 | an alert list is the first three of the contacts by priority; the contacts left out all come after |
| ContactBook.SortedIsFixed | internal/service/contact.go:259-261 | sorting a sorted list changes nothing, equal priorities included |
| Journey.JourneyService.CreateJourney | internal/service/journey.go:38-160 | refusals in the code's order; otherwise a new ongoing row and, with auto-notify and a delay within a day, one timeout message due after the whole seconds of the delay |
| Journey.JourneyService.UpdateJourney | internal/service/journey.go:162-302 | refuses ended and timed-out journeys and short leads; otherwise moves the expected return (never of a deleted row) and announces again |
| Journey.JourneyService.CompleteJourney | internal/service/journey.go:418-483 | every status but ended becomes ended, a deleted row stays |
| Journey.JourneyService.DeleteJourney | internal/service/journey.go:812-860 | the journey becomes cancelled and deleted from any status |
| Journey.JourneyService.ProcessReminder | internal/service/journey.go:516-626 | one task for the traveller and the stamp, only while ongoing, not stamped and with five cents |
| Journey.JourneyService.ProcessTimeout | internal/service/journey.go:630-809 | only while ongoing and past the grace period: timed out, with the alerts for the first three contacts if the balance covers every contact, without any if not |
| Journey.JourneyService.Publish | internal/queue/producer.go:148-193 | a delay over a day is refused; else the message is due after its whole seconds |
| Journey.JourneyService.HandleMessage | internal/queue/consumer.go:574-724 | a handled message is skipped; otherwise it is processed and marked, a missing journey included; when the database refuses, the mark is removed, nothing changes and the message is to be retried |
| Journey.JourneyService.PublishFor | internal/schedule/journey_scheduler.go:118-283 | reminder and timeout message for one approaching journey, each unless marked, with the mark set only when published; the code's 24h guard never fires |
| Journey.JourneyService.CheckJourneyTimeouts | internal/schedule/journey_scheduler.go:48-295 | the scan does this for exactly the ongoing journeys expected within the next ten minutes |
| Journey.JourneyService.CheckOverdueJourneys | internal/schedule/journey_scheduler.go:299-399 | an immediate timeout message for every ongoing journey past the grace period |
| JourneySafety.StepIsLawful | internal/service/journey.go:162-860 | any call, scan or delivery does one of four things to a given journey: nothing, a user's edit, the reminder, or the lawful timeout |
| JourneySafety.LeftForGood | internal/service/journey.go:649-655 | once a journey has left ongoing it never returns, its alerts, attempts and expected return are final, and only ended or cancelled can follow; cancelled is final |
| JourneySafety.LeavesOnce | internal/service/journey.go:649-655 | over any run with stale, duplicate and rescheduled messages the number of departures from ongoing is one if the journey has left, else zero |
| JourneySafety.OneAlertOneReminder | internal/service/journey.go:689-802 | after any run: at most one attempt and one reminder; contact tasks only for a journey that left ongoing, at most three, in priority order, all written at one instant not before expected return + 10 minutes |
| JourneySafety.AlertsHaveTheirStep | internal/service/journey.go:689-802 | the contact tasks of a journey all come from one step, which took it from ongoing to timed out after the grace period for a balance of at least five cents per contact |
| JourneyTiming.ScannedIsDue | internal/schedule/journey_scheduler.go:303-306 | the overdue scan's filter implies the processor's guard at any later delivery |
| JourneyTiming.BackstopBound | cmd/scheduler/main.go:151-175 | with overdue scans at most P apart and messages delivered within delta, a journey whose return stays T until then has left ongoing after T + 10 min + P + delta, from any sound state and whatever calls are refused |
| JourneyTiming.SilenceRaisesTheAlarm | internal/service/journey.go:657-802 | unless the owner completes or cancels by then, it is timed out, with its alert triggered or recorded as failed |
| JourneyTiming.ReturnMovesIff | internal/service/journey.go:183-250 | the stored return changes exactly by an accepted reschedule of its owner to another time |
| JourneyTiming.ClosesIff | internal/service/journey.go:438-453 | an ongoing or timed-out journey becomes ended or cancelled exactly by an accepted call of its owner |
| JourneyTiming.SeenBeforeItsReturn | cmd/scheduler/main.go:123-147 | with window scans at most ten minutes apart, a journey still ongoing past its expected return was seen by a scan after its return was last set, with a delay of at most 20 minutes |
| JourneyTiming.WindowScanAnnouncesIff | internal/schedule/journey_scheduler.go:72-283 | a window scan publishes a timeout message for a journey exactly if it is approaching, its owner exists, the broker accepts and it is not marked; the message is due less than a second before the grace period ends |
| JourneyTiming.SettingAnnounces | internal/service/journey.go:107-128 | a create or reschedule publishes one timeout message exactly if auto-notify is on, the delay is within a day and the broker accepts; it is due within the last second of the grace period |
| JourneyTiming.EarlyMessageIsDropped | internal/service/journey.go:657-668 | a timeout message whose delay was cut works exactly if it is delivered after the grace period; delivered when due, exactly if the delay was whole seconds; after an early delivery it never works |
| JourneyRace.LateWriteIsSafeIff | internal/service/journey.go:639-728 | a timeout written after other calls came between read and write, funded or not, is lawful exactly if the row is still ongoing and due when written, or the write has nothing to do |
| JourneyRace.AttemptsAtMostProcessors | internal/service/journey.go:639-728 | with the reads and writes of n processors interleaved with each other and with all other calls, a journey gets at most n attempts |
| JourneyRace.OnceIffOneProcessor | internal/service/journey.go:639-728 | a journey that is due and paid for is sure to get at most one attempt exactly if there is one processor |
| JourneyRace.ReportedBackYetAlerted | internal/service/journey.go:717-728 | a run from empty tables in which the user reports back between read and write, and is timed out and the contact alerted |
| JourneyTiming.RescheduleOutlivesMark | internal/cache/journey.go:47-50 | a run in which the last window scan sees an ongoing journey and yet every message ever published has been handled |
| JourneyCalls.StepDoes | internal/service/journey.go:162-860 | a reminder, the timeout, a new return, the report and the withdrawal happen to a journey each exactly under its own condition on rows, messages, marks and owners, and nothing else ever happens to it |
| JourneyCalls.RemindedIff | internal/service/journey.go:516-626 | over any run from empty tables: one reminder exactly if at some moment an unhandled reminder message about the journey reaches its owner while it is ongoing, unstamped and the wallet holds five cents; otherwise none |
| JourneyCalls.ExpiryAlerts | internal/service/journey.go:674-809 | at the timeout the first three contacts by priority get one alert each if the balance covers five cents for every contact; otherwise nobody does and the row records the failure |
| JourneyCalls.CreateAnswers | internal/service/journey.go:38-160 | created exactly if the user exists and the return is at least ten minutes ahead, as a fresh row with its message within a day; each refusal exactly under its own condition, with nothing changed |
| JourneyCalls.RescheduleAnswers | internal/service/journey.go:162-302 | refused exactly for a stranger, an ended or timed-out journey, or a return too close; a cancelled row stays, though its timeout is announced again |
| JourneyCalls.ClosingAnswers | internal/service/journey.go:418-483 | completing is refused exactly for a stranger or an ended journey, cancelling exactly for a stranger |
| JourneyCalls.WindowScanPublishesIff | internal/schedule/journey_scheduler.go:72-283 | for each journey and each kind one message and a mark for a day exactly if the return is within ten minutes, the owner exists, no mark is alive, the broker accepts and, for the reminder, none was sent; aimed at its instant, never late and at most a second early |
| JourneyCalls.OverdueScanPublishesIff | internal/schedule/journey_scheduler.go:299-399 | one immediate message for each ongoing journey past its grace period whose owner exists and for which the broker accepts, none for any other |
| JourneyRace.AloneIsTimeout | internal/service/journey.go:639-728 | read and write at one instant with nothing in between are the processor |
| RateLimit.Limiter.Allow | internal/middleware/ratelimit.go:102-135 | prunes, adds the request even if it will be rejected, counts and renews the expiry |
| RateLimit.Limiter.Handle | internal/middleware/ratelimit.go:153-190 | blocked requests touch nothing; a rejection sets the block |
| RateLimit.AnswersByHistory | internal/middleware/ratelimit.go:102-135 | with every limiter's window on the key at least this one's, the answer and the count from Redis are those computed from the full history |
| RateLimit.NextAnswer | internal/middleware/ratelimit.go:150-191 | the same after any run from empty keys |
| RateLimit.WindowAndBlockHold | internal/middleware/ratelimit.go:150-191 | in any run no span (a, a + Window] admits more than MaxRequests, and every request within the block after a rejection is blocked |
| RateLimit.MountedLimitersHold | internal/router/router.go:18-81 | for each limiter as it is mounted, on keys that only it uses: no window admits more than its limit and its block holds |
| RateLimit.AlwaysRightIffNoShorter | internal/middleware/ratelimit.go:102-135 | of limiters that share a key, one answers by the history after every run exactly if none has a shorter window |
| RateLimit.TwoAdmissionsLeakIff | internal/middleware/ratelimit.go:102-141 | two limiters with a limit of one on one key can admit two requests within one long window exactly if the long window is longer than twice the short one and ten seconds, or longer (by more than a tick) both than the short one and ten seconds and than the short one's block |
| RateLimit.MountingSettingsWouldLeak | internal/router/router.go:47 | if the commented-out limiter of the user settings were mounted, the limit on journeys would not be kept |
| CheckInTimeout.CheckInService.ShouldSendQuotaDepleted | internal/service/checkin.go:692-734 | true exactly if the user has no earlier quota_depleted task or a grant created after the latest |
| CheckInTimeout.CheckInService.AlertContacts | internal/service/checkin.go:810-880 | tasks for the first three contacts in priority order |
| CheckInTimeout.CheckInService.ProcessTimeoutBatch | internal/service/checkin.go:559-895 | the batch is the fold of its loop body over the list, with check-ins and balances as read before the loop |
| CheckInTimeout.CheckInService.CompleteCheckIn | internal/service/checkin.go:487-553 | the upsert sets status and time and leaves the alert time |
| CheckInTimeout.CheckInService.UpdateReminderSentAt | internal/queue/consumer.go:898-942 | the upsert sets the reminder time and leaves status and alert time |
| CheckInSafety.BatchIsExact | internal/service/checkin.go:642-886 | a batch times out exactly the listed records that were there and not alerted; a funded one gets, as often as it is listed, exactly the alerts to the first three contacts for a balance of five cents per contact, an unfunded one at most one message to the user; no other record changes |
| CheckInSafety.AlertedAtMostOnce | internal/service/checkin.go:651-667 | over any run of batches, check-ins, stamps and payments a (user, date) that no batch lists twice has the tasks of at most one alert, or the message about the quota, not both |
| CheckInSafety.AlertTimeIsFinal | internal/service/checkin.go:527-537 | an alert time is never cleared or moved, and nothing is added to the alert |
| CheckInSafety.AlertedOnceForEver | internal/service/checkin.go:527-667 | both, from empty tables: at any moment at most one alert, and what it is never changes later |
| CheckInSafety.PublishedListsOnce | internal/schedule/checkin_scheduler.go:264-268 | a list of distinct ids names nobody twice |
| CheckInSafety.ToldOncePerGrant | internal/service/checkin.go:692-772 | between any two quota_depleted tasks of a user there is a grant created after the first and not after the second, over any batches |
| CheckInCalls.ShouldTellIff | internal/service/checkin.go:692-734 | the two queries ask for just this: no earlier quota_depleted task of the user, or a grant of the user later than all of them |
| CheckInCalls.BatchDoes | internal/service/checkin.go:642-886 | a batch touches exactly the waiting records of its date that it lists; it times them out, alerts the first three contacts if the balance covers all, and otherwise adds one quota_depleted task exactly if the user was never told or has a grant later than every time |
| CheckInCalls.UpsertsDo | internal/service/checkin.go:487-553 | a check-in is recorded as done with its time exactly if the user exists and has check-ins enabled, whether or not a stamp created the row; the stamp needs only the user; each leaves the other's column, the alert and all other records |
| CheckInCalls.StatusTurnsIff | internal/service/checkin.go:487-895 | a record turns to done exactly by an accepted check-in and to timed out exactly by a batch that lists it while it waits |
| CheckInRace.AloneIsBatch | internal/service/checkin.go:567-886 | read and write with nothing in between are the batch |
| CheckInRace.AlertsAtMostProcessors | internal/service/checkin.go:567-886 | with reads and writes of n processors interleaved with each other and with all other calls, a record gets the alerts of at most n batches |
| CheckInRace.OnceIffOneProcessor | internal/service/checkin.go:567-886 | a record that is there, not alerted and paid for, of a user with contacts, is alerted at most once in every run exactly if there is one processor |
| CheckInSafety.DoneDoesNotProtect | internal/service/checkin.go:651-667 | a user who has checked in and was not alerted is alerted by a batch that lists the user |
| CheckInSafety.CheckedInYetAlerted | internal/service/checkin.go:651-667 | a run from empty tables in which a user checks in and the contact is alerted afterwards |
| CheckInSafety.AlertedOnceIffListedOnce | internal/service/checkin.go:614-667 | after any list a funded record has as many more copies of its alert as the list names its user; for a user with contacts it is one alert exactly if the list names the user once |
| CheckInReminder.ReminderService.ProcessReminderBatch | internal/service/checkin.go:201-414 | tasks, counters and returned count are those of Processed: the rollback of tasks but not of counters, a failing commit and the limit check's own clock included |
| CheckInReminder.BatchCountsItsRows | internal/service/checkin.go:247-413 | the returned count is the number of rows left behind, none after a failure; unless the month turns during the batch, committed rows of a user and month <= counter <= five even then |
| CheckInReminder.FiveAMonth | internal/cache/checkin.go:137-176 | no run of batches that stay within their month commits more than five reminders for a user and month |
| CheckInReminder.WritesIff | internal/service/checkin.go:255-391 | a batch leaves rows for a user exactly if no turn fails, it commits, and a turn of the user finds room in the tables as they were before |
| CheckInReminder.CountersFollowRows | internal/service/checkin.go:353-413 | a batch that succeeds raises each counter by just the rows it leaves, all of its own instant, month and users; one that fails leaves no row and may only raise counters of its month |
| CheckInReminder.SixthIffMonthTurned | internal/cache/checkin.go:169-176 | a user with five reminders in the batch's month is left with more exactly if the batch succeeds and a turn of the user that already reads the next month finds room there |
| CheckInReminder.SixInAMonth | internal/cache/checkin.go:169-176 | a run from empty tables, one batch a day, that leaves six rows of one user in one month |
| CheckInReminder.OneReminderADay | internal/service/checkin.go:265-292 | over any repeated, overlapping or failing batches that run on their UTC day a user gets at most one reminder a day |
| CheckInReminder.RepeatWritesAgainIff | internal/service/checkin.go:265-292 | after a batch that reminded a user, any other batch for the same date writes that user another row exactly if the first did not run on the day it is for, and the other succeeds with a turn of the user that finds room under the limit |
| ReminderRace.AloneIsBatch | internal/service/checkin.go:247-391 | work and commit with nothing in between are the batch |
| ReminderRace.RemindersAtMostProcessors | internal/service/checkin.go:247-391 | with the transactions of n processors overlapping freely, a user gets at most n reminders a day |
| ReminderRace.OnceIffOneProcessor | internal/service/checkin.go:247-391 | a user who can be reminded gets at most one reminder a day in every run exactly if there is one processor |
| Decimal.ParseFormat | internal/service/checkin.go:120-136 | a user id written to a key is read back unchanged, for every int64 |
| Decimal.ParsedIff | internal/service/checkin.go:120-136 | a key is read exactly if it is digits after at most one sign, for a number of 64 bits, and as that number |
| ReminderFilter.BatchGetUserSettings | internal/cache/user.go:73-121 | the map holds exactly the asked users whose key holds settings, placeholders skipped |
| ReminderFilter.ValidateReminderBatch | internal/service/checkin.go:83-196 | an unreadable schedule skips every positive id, a bad id is an error, otherwise the three lists are the users by route in order |
| ReminderFilter.NobodyIsLost | internal/service/checkin.go:136-192 | the three lists together hold each user as often as the message lists it |
| ReminderFilter.CanonicalPartition | internal/service/checkin.go:136-192 | with keys the service writes, each user is in exactly one list once, and is processed exactly if nothing is cached, or the cached settings are not newer, enabled and have the same remind time; republished exactly if only the remind time differs; skipped exactly if the settings are newer or off |
| ReminderFilter.ListedIff | internal/service/checkin.go:136-192 | for any keys: processed exactly if nothing is cached or nothing changed, republished exactly if only the remind time changed, skipped exactly if the settings are newer or off, or no key is written as the user |
| ReminderFilter.PositiveIsAll | internal/service/checkin.go:104-118 | an unreadable schedule skips every positive id as often as it is listed, and no other |
| ReminderFilter.ListedOnceIff | internal/service/checkin.go:120-136 | for any keys, nobody is listed twice exactly if no two keys are the same number |
| Contacts.UserRow.CreateContact | internal/service/contact.go:46-142 | refusals in order; otherwise appended, and the first contact activates |
| Contacts.UserRow.DeleteContact | internal/service/contact.go:213-284 | refusals in order; otherwise filtered, sorted and renumbered |
| Contacts.UserRow.UpdateContact | internal/service/contact.go:286-388 | only the given fields of the first contact of that priority change |
| Contacts.UserRow.ReplaceContacts | internal/service/contact.go:397-529 | the first flaw of priorities, then of phones, refuses; otherwise the sorted list replaces the old one |
| Contacts.DeleteKeepsOrder | internal/service/contact.go:245-266 | a delete removes the one contact of that priority and numbers the others 1..n in their old order, never leaving an empty list |
| Contacts.DeleteUndoesCreateIff | internal/service/contact.go:245-266 | deleting the contact just created restores the list exactly if it was numbered 1..n |
| Contacts.UpdateIsLocal | internal/service/contact.go:315-371 | an accepted update changes only the contact of that priority, and of it only the name, relationship or phone given |
| Contacts.ReplaceIsSorted | internal/service/contact.go:426-480 | an accepted list is stored as its permutation in strictly ascending priorities within 1..3 |
| Contacts.EditKeepsTidy | internal/service/contact.go:46-529 | every edit keeps at most three contacts with distinct priorities in 1..3, never empties a list, keeps an active user with a contact, never lowers a status, and changes nothing when refused |
| ContactCalls.CreateAnswers | internal/service/contact.go:46-142 | added as given, at the end, exactly if the priority is in 1..3 and free, there are fewer than three, and in production the user has a phone and the contact's is another; each refusal exactly under its own condition |
| ContactCalls.DeleteAnswers | internal/service/contact.go:213-284 | deleted exactly if the contact is there and not the only one |
| ContactCalls.UpdateAnswers | internal/service/contact.go:286-388 | updated exactly if the contact is there and, in production, does not get the user's own phone; each given field of the first match is replaced and nothing else |
| ContactCalls.ReplaceAnswers | internal/service/contact.go:397-529 | replaced by the sorted list exactly if it has one to three entries, legal and distinct priorities, well-formed phones and, in production, not the user's own; otherwise the first unsound priority answers, or else the first bad phone |
| Accounts.UserService.ExchangeAlipayAuthCode | internal/service/auth.go:44-291 | the login of the specification Exchanged, every refusal included |
| Accounts.UserService.VerifyPhoneCaptchaAndLogin | internal/service/auth.go:479-720 | the login of the specification CaptchaVerified, every refusal included |
| Accounts.UserService.GetWaitListInfo | internal/service/user.go:439-515 | more than thirty calls in a minute are refused, an answer of the last five minutes is repeated; otherwise an unknown open id becomes an onboarding or, over capacity, a waitlisted user without wallet, and the answer is kept |
| Accounts.WaitlistAnswerIsRecent | internal/service/user.go:450-513 | the answer tells of the caller's own row as it is after the call or was within the last five minutes |
| Accounts.LoginsAgree | internal/service/auth.go:500-520 | on sound tables the two logins are one function, and the captcha login's fallback by phone never finds anyone |
| Accounts.SpendingIsSound | internal/service/quota.go:43-67 | spending never adds a bonus, and the wallet that PreDeduct creates implicitly never stays |
| Accounts.InvAlways | internal/service/auth.go:44-720 | the invariant of users and wallets holds after any run of logins, waitlist calls, contact edits and spending |
| Accounts.AccountsAreSound | internal/service/auth.go:69-291 | after any run open ids and phones are unique; users in contact or active have a phone, a wallet and exactly one bonus, others none of these; active is the same as having a contact |
| Accounts.StatusNeverFalls | internal/service/auth.go:187-192 | no run lowers a user's status rank, changes an open id or removes a phone |
| Accounts.LoginIsNewIffBonus | internal/service/auth.go:198-257 | a login that succeeds puts open id and phone on one row and reports a new user exactly if it granted the bonus, on a wallet holding just that; no other wallet changes; a refused login changes nothing |
| Accounts.CapacityStopsOnlyNewcomers | internal/service/auth.go:91-101 | whoever asked for the waitlist once can log in with a free phone after any further run, however full the tables are; an unknown open id with a free phone is refused exactly if they are full |
| Accounts.NextStepIsRight | internal/service/user.go:703-725 | on sound tables the next step is home exactly for users with a contact, filling in contacts exactly for those with a phone and none, binding the phone exactly while onboarding, and the waitlist exactly while waitlisted |
| AccountCalls.CaptchaLoginIff | internal/service/auth.go:479-720 | succeeds exactly if the code fits, the open id is there, the phone is free or the caller's own, and the caller is known or there is room; then only the caller's row and wallet change, contacts stay, a new user gets the bonus; each refusal exactly under its own condition, with nothing changed |
| AccountCalls.AlipayLoginIff | internal/service/auth.go:44-291 | the same with a well-formed phone in place of the code |
| AccountCalls.PhonesAreProved | internal/service/auth.go:486-489 | over any run: whoever has a phone and had not before has proved it by a login with the own open id, with the right code or a well-formed number from Alipay |
| AccountCalls.FailedLoginIsNothing | internal/service/auth.go:486-489 | a run with a wrong code or a malformed phone put before it ends as it does without |
| AccountCalls.QueueAnswers | internal/service/user.go:463-494 | an unknown open id gets an empty row that is onboarding exactly if the user fits under the capacity, and waitlisted otherwise; for a known one nothing changes |
| AccountCalls.WaitlistAnswers | internal/service/user.go:439-515 | refused exactly from the thirty-first call on within the minute of its counter; an answer of the last five minutes is repeated and touches no row; otherwise the row is queued, told about and the answer kept |
| AccountCalls.ThirtyAMinute | internal/service/user.go:439-449 | of the calls an open id makes within a minute of its first after a quiet one exactly the first thirty are answered, whoever else asks meanwhile |

## Left out

- HTTP handlers, tokens, CORS, logging, metrics, tracing and panic recovery: no state worth proving.
- Redis errors, and database errors other than those named under the failure model, a refused journey processor and a failing reminder batch.
- Broker order, priorities, and delivery of a delayed message before its delay is over.
- A provider error after which the message was sent nevertheless: an error counts as not sent.
- A nil notification service, a garbled template configuration beyond the four flaws of a message, and a nil provider response.
- Integer widths: amounts, counters and instants are unbounded; only user ids in `Decimal` have their 64 bits.
- Soft-deleted users (`DeleteUser`): raw queries ignore `deleted_at` and gorm queries honour it.
- Encryption and hashing: phones and hashes are opaque values; two phones never share a hash.
- Time zones and calendars: days, months and dates are abstract keys or multiples of 24 hours.
- The running flag of the window scan: a scan is one step, so it never finds itself running; the order of its goroutines does not matter to any journey.
- The messages that the journey and check-in handlers publish for the tasks they create: the tasks are the interface between the journey and check-in models and the delivery model.
- Locks and retries of the check-in message handlers: the batches are applied directly, any number of times, which is more than the locks allow.
- Turns of two reminder batches that interleave one by one: the work of a batch is one step, so two checks of a monthly counter before either increment are not covered. Two first logins at once meet the unique indexes of the table.
- Device information, nicknames and token pairs.
- The journey list and its pagination: the next page skips the cursor row, so no completeness holds.
- Settings updates: the promised lead of ten minutes before the reminder cannot be met, since the new time is parsed without a date and compared with the clock, so every change of it is refused (`internal/service/user.go:199-212`).
- `buildReminderMessage`: it takes the date of today from a UTC truncation and the hour from the local clock, so that the message is for today fails for part of each day (`internal/service/user.go:600-606`).
- The daily scheduling of check-ins: when its messages are due depends on the local calendar, which is not modelled; of its lists only that they name nobody twice is used.
- Streak days: nothing calls the query.
- CheckInReminder.OneReminderADay: stated for batches that run on the UTC day they are for, since it is false otherwise (`RepeatWritesAgainIff`).
- CheckInReminder.FiveAMonth: stated for batches that do not run across the end of a month, since it is false otherwise (`SixthIffMonthTurned`, `SixInAMonth`).
- CheckInSafety.AlertedAtMostOnce: stated for records that no batch lists twice, as the shipped batches never do, since it is false otherwise (`AlertedOnceIffListedOnce`).
- RateLimit.AnswersByHistory: stated for keys whose limiters all have at least the window in question, as all mounted ones have, since it is false otherwise (`AlwaysRightIffNoShorter`).
- RateLimit.TwoAdmissionsLeakIff: for limits of one, like those of the two limiters that have a prefix in common; the general statement about shared keys is `AlwaysRightIffNoShorter`, for limits of at least one.
- DeliveryFaults.CrashAndExpiryResend: the instants of the 24 hours before the mark expires are not modelled; the copy has to stay undelivered for that long.
- DeliverySafety.AtMostOneSend: stated for runs in which no mark is reset after a crash or a failed update; which faults it survives is `SentOnceIff`.
- DeliverySafety.NoSilentLoss: excepts messages whose holder crashed; which faults it survives is `NeverLostIff`.
- Quota.NothingGoesNegative: serial transactions only; for interleaved ones the exact bound is `OverdraftBound`.
