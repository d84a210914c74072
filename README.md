# Subscription reminders: a Dafny model of the notification core

This project models the server side of a subscription tracker. Users record
recurring payments (name, price, billing cycle, payment date, time zone,
reminder offset). The server keeps one pending reminder per subscription and
delivers due reminders through a Telegram bot. The model covers:

- **The dispatcher endpoint** (`Dispatcher`). First comes the renewal pass. It
  takes at most 50 subscriptions whose payment date has passed. It moves each
  date forward one billing cycle at a time until the date's local midnight is
  in the future. It then replaces the subscription's pending reminder.
  Second, the endpoint hands at most 100 due pending notifications to the
  worker, one call each.
- **The Telegram worker** (`TelegramWorker`). It resolves a chat id, renders
  the message and tries the send up to three times within one call. It then
  marks the row `sent` or `failed`.
- **The create, update and delete handlers** (`CreateSubscription`,
  `UpdateSubscription`, `DeleteSubscription`). Each runs its required-field
  scan, its ownership check and its writes to both tables.
- **The two older senders**: the batch sender (`BatchSender`) and the backup
  single sender (`SingleSender`). Both POST to a notify endpoint.
- **The Telegram linking flow**: a one-hour link token (`LinkTokens`), then the
  bot's call that binds the chat to the token's user and spends the token
  (`LinkContact`).
- **The dashboard figures** (`Dashboard`): the monthly spend, and the next five
  payments sorted by date.
- **The two mock logo searches** (`LogoSearch`).

Shared modules:

- `Calendar`: dates, and Luxon's clamping month and year steps.
- `TimeZones`: local midnight in a zone, and the reminder offsets.
- `BillingCycles`: the renewal loop.
- `Reminders`: the reminder rows the three schedulers write.
- `Tables`: the four tables as a `Database` class whose methods are the
  handlers' queries.
- `Requests`: responses, `x || null`, and the required-field scan.
- `Text`: `trim`, `toLowerCase`, `includes`, `join`, and number rendering.

Everything outside the program is a parameter:

- the current instant;
- the time-zone database, a `TzDb`. Its only assumptions are that UTC is
  known and that a later date has a later local midnight;
- each database error, a boolean or a set of row ids;
- each HTTP outcome, a `SendOutcome` or a function from attempt number to
  outcome;
- the random link token;
- the `created_by` column default.

Every clock read of the dispatcher endpoint is the same `now`: the renewal
pass's timestamp, each test of the renewal loop's `while` condition (once per
step, for every subscription) and the due query's timestamp. No time passes
while the endpoint runs.

A query with `.limit(n)` returns some matching rows, each once, at most `n` of
them, and all of them when they fit (`Tables.Select`). A bare `date` compared
with a timestamp counts as midnight UTC. The dispatcher's `Promise.all` over
the worker calls, and the batch sender's over its POSTs, run one call after
another here.

Where the system's written description and the code differ, the model follows
the code:

- **Telegram attempts.** The worker makes its three attempts inside one call.
  It never writes `attempts_count`. It never reschedules `next_attempt_at`.
  After three failures the row is `failed` at once.
- **No early-dispatch guard.** The worker has no "not yet due" check. A
  `failed` or `pending` row named directly is delivered again. Only `sent`
  rows are final.
- **No chat id.** When no chat id resolves, the row fails with
  `deliver_exception: no_chat_id_resolved`. There is no email fallback.
- **Update reminders are never dispatched.** The update handler's replacement
  reminder has no `next_attempt_at`, so the dispatcher's due query never
  selects it. The model proves this (`UpdateSubscription.UpdateReminderNeverDispatched`).
- **Update reminder time.** With no offset, the update handler stores the
  bare date, which the timestamp column reads as midnight UTC. The create
  handler and the renewal pass use local midnight instead
  (`UpdateSubscription.NoOffsetIgnoresZone`).
- **Month clamping compounds.** A monthly renewal from 31 January lands on
  28 March, not 31 March (`BillingCycles.MonthlyClampCompounds`).

## Model

| member | source | states |
|---|---|---|
| Requests.Normalize | src/pages/api/action_create_subscription.ts:39-50 | `x \|\| null`: null exactly for the empty text, the text itself otherwise |
| Requests.OrElse | src/pages/api/action_create_subscription.ts:18-22 | a present, non-empty value is kept; a missing or empty one becomes the fallback |
| Requests.FirstMissing | src/pages/api/action_create_subscription.ts:30-31 | None iff every required field is present; otherwise the named field is absent and every field before it is present (the first missing one) |
| Requests.ScanRequired | src/pages/api/action_create_subscription.ts:31 | the in-order scan loop returns exactly the first missing field |
| Text.TrimStart | src/pages/api/action_logo_search.ts:27 | the result is a suffix, starts with a visible character, and only white space was removed |
| Text.TrimEnd | src/pages/api/action_logo_search.ts:27 | the result is a prefix, ends with a visible character, and only white space was removed |
| Text.TrimKeepsVisible | src/pages/api/wf_send_notification_job.ts:88 | a text that starts and ends with a visible character is unchanged by `trim` |
| Text.TrimBlank | src/pages/api/action_logo_search.ts:27-28 | a text made only of white space trims to the empty text |
| Text.Lower | src/pages/api/action_logo_search.ts:18 | same length, each character lowered on its own |
| Text.ContainsAt | src/server/action_logo_search.ts:21 | `includes` holds iff the needle occurs at some position |
| Calendar.DaysInMonth | src/pages/api/wf_notification_dispatcher.ts:70-75 | 28 to 31 days; February has 29 exactly in leap years |
| Calendar.NextDay | src/pages/api/wf_notification_dispatcher.ts:76-77 | the next day is a valid later date, one day count on |
| Calendar.PrevDay | src/pages/api/action_create_subscription.ts:87-88 | the previous day is a valid earlier date, one day count back |
| Calendar.YearLength | src/pages/api/wf_notification_dispatcher.ts:74-75 | a year is 366 days long in a leap year and 365 otherwise |
| Calendar.DayNumberOrder | src/pages/api/wf_notification_dispatcher.ts:69 | day counts order valid dates exactly as calendar order does, and equal counts mean equal dates |
| Calendar.SubDaysUndoesAddDays | src/pages/api/action_create_subscription.ts:87-88 | going n days forward and n days back returns to the same date |
| Calendar.AddDays | src/pages/api/wf_notification_dispatcher.ts:76-77 | `plus({ weeks })`: a valid date exactly n day counts later |
| Calendar.SubDays | src/pages/api/action_create_subscription.ts:87-88 | `minus({ days })`: a valid date exactly n day counts earlier |
| Calendar.AddMonths | src/pages/api/wf_notification_dispatcher.ts:70-73 | `plus({ months })`: exactly n months on, day clamped to the month's length |
| Calendar.AddYears | src/pages/api/wf_notification_dispatcher.ts:74-75 | `plus({ years })`: same month n years on, day clamped (29 February becomes 28) |
| TimeZones.ZoneOrUtc | src/pages/api/wf_notification_dispatcher.ts:55 | `timezone \|\| 'UTC'`: never empty, and a given zone is kept |
| TimeZones.ReminderAt | src/pages/api/action_create_subscription.ts:81-92 | never after the payment's local midnight, equal to it exactly without an offset; 15 minutes or one hour before it, or local midnight of the day one or seven day counts earlier |
| TimeZones.LocalReminder | src/pages/api/action_create_subscription.ts:80-92 | an instant exists iff the zone is known and the date real (Luxon's invalid DateTime otherwise); `15m`, `1h`, `1d`, `1w` give the matching instant, any other offset local midnight itself |
| TimeZones.ReminderMonotone | src/pages/api/wf_notification_dispatcher.ts:115-124 | for every offset, a later payment date gives a strictly later reminder |
| TimeZones.NewYorkOneDayExample | src/pages/api/__tests__/action_create_subscription.test.ts:129-131 | 2025-11-01 in New York with offset `1d` fires at local midnight of 2025-10-31 |
| BillingCycles.CycleStep | src/pages/api/wf_notification_dispatcher.ts:70-81 | monthly and quarterly move 1 or 3 months with the day clamped; annually the same month a year on, clamped; weekly exactly 7 day counts on; an unknown cycle leaves the date |
| BillingCycles.Iterate | src/pages/api/wf_notification_dispatcher.ts:69-82 | repeated steps keep the date valid |
| BillingCycles.FirstFuture | src/pages/api/wf_notification_dispatcher.ts:66-82 | for a known cycle the local midnight of the result is after now; an unknown cycle or an already future date is kept |
| BillingCycles.FirstFutureIsFirst | src/pages/api/wf_notification_dispatcher.ts:68-82 | the result is a whole number of steps on, and every date passed over was not after now |
| BillingCycles.MonthlyClampCompounds | src/pages/api/wf_notification_dispatcher.ts:70-71 | 31 January steps to 28 February and then 28 March |
| BillingCycles.MonthlyRenewalExample | src/pages/api/wf_notification_dispatcher.ts:66-82 | a monthly date of 2025-01-31 renewed on 2025-03-15 becomes 2025-03-28 |
| BillingCycles.NextPaymentDate | src/pages/api/wf_notification_dispatcher.ts:66-84 | the `while` loop returns exactly the first future occurrence |
| Tables.DropPending | src/pages/api/wf_notification_dispatcher.ts:142-146 | the subscription has no pending row left, and every other row is kept unchanged |
| Tables.DropAllFor | src/pages/api/action_delete_subscription.ts:35-38 | no row of the subscription is left, in any status, and every other row is kept |
| Tables.ReplacePending | src/pages/api/wf_notification_dispatcher.ts:141-148 | delete-then-insert leaves the new row as the only pending one of its subscription, and keeps "at most one pending per subscription" |
| Tables.InsertFirstPending | src/pages/api/action_create_subscription.ts:110 | the first row of a new subscription is its only pending row, and "at most one pending" is kept |
| Tables.SettleKeepsAtMostOne | src/pages/api/wf_send_notification_job.ts:103-107 | writing a non-pending status never creates a second pending row |
| Tables.Select | src/pages/api/wf_notification_dispatcher.ts:178-183 | a limited query: distinct matching rows, at most the limit, all of them when they fit |
| Tables.SelectAll | src/server/wf_send_notification_job.ts:22-26 | an unlimited query: every matching row exactly once |
| Tables.TokensOf | src/pages/api/action_generate_telegram_link_token.ts:27-30 | the user's rows of telegram_link_tokens, and only those |
| Tables.DropTokensOf | src/pages/api/action_generate_telegram_link_token.ts:27-30 | `delete().eq('user_id', user)`: exactly the rows of other users remain |
| Tables.DropToken | src/pages/api/wf_link_telegram_contact.ts:55-58 | `delete().eq('token', token)`: exactly the rows with other tokens remain |
| Tables.TokensOfAppend | src/pages/api/action_generate_telegram_link_token.ts:33-39 | a user's tokens after an insert are their old tokens plus those inserted |
| Tables.DropTokensOfSelects | src/pages/api/action_generate_telegram_link_token.ts:27-30 | after the delete the user holds no token, and every other user's tokens are as before |
| Tables.KeyIndex | src/pages/api/wf_link_telegram_contact.ts:45-47 | the first row with the upsert key (user_id, provider), or proof that there is none |
| Tables.Upsert | src/pages/api/wf_link_telegram_contact.ts:45-47 | the upserted row is present, and every other row was already there |
| Tables.UpsertKeepsUnique | src/pages/api/wf_link_telegram_contact.ts:45-47 | `onConflict: 'user_id, provider'`: the key stays unique, rows of other keys are kept, and the only row with the key is the new one |
| Tables.Database.InsertSubscription | src/pages/api/action_create_subscription.ts:57-61 | a fresh id holding the row; nothing else changes |
| Tables.Database.UpdateSubscription | src/pages/api/action_update_subscription.ts:53-58 | the row with the id is replaced; nothing else changes |
| Tables.Database.ReplacePendingRow | src/pages/api/wf_notification_dispatcher.ts:142-148 | the subscription's pending rows are deleted and the new row is inserted under a fresh id |
| Tables.Database.DeleteNotificationsOf | src/pages/api/action_delete_subscription.ts:35-38 | every notification of the subscription is deleted; nothing else changes |
| Tables.Database.DeleteSubscription | src/pages/api/action_delete_subscription.ts:41-44 | the subscription row is deleted; nothing else changes |
| Tables.Database.DeleteTokensOf | src/pages/api/action_generate_telegram_link_token.ts:27-30 | the user's tokens are deleted; nothing else changes |
| Tables.Database.InsertToken | src/pages/api/action_generate_telegram_link_token.ts:33-39 | the token row is appended; nothing else changes |
| Tables.Database.DeleteToken | src/pages/api/wf_link_telegram_contact.ts:55-58 | every row with that token value is deleted; nothing else changes |
| Tables.Database.UpsertContact | src/pages/api/wf_link_telegram_contact.ts:45-47 | the contact is upserted on (user_id, provider), keeping the key unique |
| Tables.Database.InsertNotification | src/pages/api/action_create_subscription.ts:110 | the row is inserted under a fresh notification id; nothing else changes |
| Reminders.ReminderTitle | src/pages/api/wf_notification_dispatcher.ts:132 | the title is the fixed `Subscription renewal` prefix followed by exactly the subscription's name |
| Reminders.ReminderPayload | src/pages/api/wf_notification_dispatcher.ts:130-136 | the payload is addressed `to` the owner, who is also its `user_id`, with the given title and body and no chat id |
| Reminders.PendingRow | src/pages/api/wf_notification_dispatcher.ts:126-139 | a pending row of the subscription with the given times, not sent, without error |
| TelegramWorker.ResolveChatId | src/pages/api/wf_send_notification_job.ts:56-78 | `chat_id`, else `to`, else (when the payload names a user and the lookup succeeds) that user's telegram contact when it is non-empty, and nothing otherwise; never the empty text |
| TelegramWorker.TelegramContact | src/pages/api/wf_send_notification_job.ts:58-73 | a found id comes from a telegram row of the user, none only when there is no such row, and with a unique key it is exactly that row's id |
| TelegramWorker.MessageText | src/pages/api/wf_send_notification_job.ts:81-88 | "Subscription reminder" whenever title and body are blank and there is no `meta.url` (a white-space url still pushes its `Link:` line); otherwise trimmed and non-empty, starting with a visible title and ending with `Link: meta.url` when the url is visible; the exact layouts for visible title and body with no url or a visible url, a blank title with a visible body and no url or a visible url, a visible title with a blank body and no url, a visible title with an empty body and a visible url, and a visible url alone under a blank title and body |
| TelegramWorker.JoinedEmpty | src/pages/api/wf_send_notification_job.ts:81-88 | the joined and trimmed lines are empty exactly when there is nothing to say |
| TelegramWorker.JoinedLayout | src/pages/api/wf_send_notification_job.ts:81-88 | visible title, body and link give exactly `title`, blank line, `body`, blank line, `Link: meta.url` |
| TelegramWorker.JoinedBodyOnly | src/pages/api/wf_send_notification_job.ts:81-88 | a visible body under a blank title, without a link, is sent alone |
| TelegramWorker.JoinedTitleOnly | src/pages/api/wf_send_notification_job.ts:81-88 | a visible title over a blank body, without a link, is sent alone |
| TelegramWorker.JoinedBodyAndLink | src/pages/api/wf_send_notification_job.ts:81-88 | a visible body and link under a blank title give the body, a blank line and the link |
| TelegramWorker.JoinedTitleAndLink | src/pages/api/wf_send_notification_job.ts:81-88 | a visible title and link with no body give the title, a blank line and the link |
| TelegramWorker.JoinedLinkOnly | src/pages/api/wf_send_notification_job.ts:81-88 | a visible link under a blank title and body is sent alone |
| TelegramWorker.ReminderMessage | src/pages/api/wf_send_notification_job.ts:81-88 | a scheduler's reminder is sent as its title, a blank line and its body, exactly |
| TelegramWorker.ReminderChatIsOwner | src/pages/api/wf_send_notification_job.ts:56 | a scheduler's reminder goes to its owner's id, whatever user_contacts holds |
| TelegramWorker.SendRounds | src/pages/api/wf_send_notification_job.ts:91-122 | delivered on the first accepted attempt among three, with all earlier ones failed; exhausted only when all three failed, keeping the third error |
| TelegramWorker.DeliveryOf | src/pages/api/wf_send_notification_job.ts:52-79 | the delivery ends without a chat id exactly when none resolves |
| TelegramWorker.AttemptCount | src/pages/api/wf_send_notification_job.ts:91-96 | never more than three sends |
| TelegramWorker.Settle | src/pages/api/wf_send_notification_job.ts:101-138 | never pending afterwards; `sent` iff delivered, with `sent_at` set and the error cleared; otherwise `failed` with the error; other columns untouched |
| TelegramWorker.FindChatId | src/pages/api/wf_send_notification_job.ts:56-78 | the lookup agrees with `ResolveChatId`, "" standing for no chat id |
| TelegramWorker.SendAttempts | src/pages/api/wf_send_notification_job.ts:91-122 | the retry loop ends as `SendRounds` says, having posted the same chat and text once per attempt |
| TelegramWorker.Deliver | src/pages/api/wf_send_notification_job.ts:52-144 | only the delivered row changes, settled by its delivery; one outbound message per attempt |
| TelegramWorker.HandleJob | src/pages/api/wf_send_notification_job.ts:150-198 | 405, 400, 500 on a fetch error or an unknown id, 200 "already sent" without a send, 500 without a bot token; otherwise the row is settled and the answer follows the delivery |
| TelegramWorker.HandleJobKeepsAtMostOne | src/pages/api/wf_send_notification_job.ts:103-128 | a worker call never gives a subscription a second pending row |
| Dispatcher.Renewed | src/pages/api/wf_notification_dispatcher.ts:58-84 | only the payment date changes; for a known cycle its local midnight is after now; an unknown cycle leaves the row as it was |
| Dispatcher.RenewalRow | src/pages/api/wf_notification_dispatcher.ts:114-139 | a pending reminder of the subscription, due at local midnight minus the offset, first attempt at that same instant |
| Dispatcher.Plan | src/pages/api/wf_notification_dispatcher.ts:53-98 | exactly the rows in a known zone with a real date whose update succeeds are written |
| Dispatcher.RenewOne | src/pages/api/wf_notification_dispatcher.ts:53-150 | one loop iteration: the new date, the pending-row replacement and the count, as the plan says; skipped rows change nothing |
| Dispatcher.PrefixSubs | src/pages/api/wf_notification_dispatcher.ts:53-98 | after i iterations exactly the planned subscriptions met so far have their new date |
| Dispatcher.PrefixPending | src/pages/api/wf_notification_dispatcher.ts:141-148 | each subscription renewed so far has exactly one pending row, its new reminder |
| Dispatcher.PrefixKeeps | src/pages/api/wf_notification_dispatcher.ts:141-148 | rows of subscriptions not yet renewed and non-pending rows are untouched; new rows belong to renewed subscriptions |
| Dispatcher.PrefixAtMostOne | src/pages/api/wf_notification_dispatcher.ts:141-148 | no subscription gains a second pending row |
| Dispatcher.PrefixCount | src/pages/api/wf_notification_dispatcher.ts:150 | after i iterations `renewedCount` is the number of planned subscriptions met so far |
| Dispatcher.RenewedArePlanned | src/pages/api/wf_notification_dispatcher.ts:53-98 | the planned ids of the batch are exactly those in a known zone, with a real date and an update that succeeded |
| Dispatcher.RenewalWrites | src/pages/api/wf_notification_dispatcher.ts:53-156 | `renewedCount` is the number of renewed subscriptions; exactly those advance to their first future date, each with one pending reminder for it |
| Dispatcher.RenewalKeeps | src/pages/api/wf_notification_dispatcher.ts:141-148 | other subscriptions' notifications and all sent or failed rows are kept; new rows belong to renewed subscriptions; at most one pending per subscription is kept |
| Dispatcher.RenewOverdue | src/pages/api/wf_notification_dispatcher.ts:27-157 | at most 50 distinct overdue ids, all of them when they fit; the store is the loop's fold over them; sent rows untouched; at most one pending kept |
| Dispatcher.DispatchPrefixRows | src/pages/api/wf_notification_dispatcher.ts:197 | after i worker calls, each row the worker attempted is settled by its own delivery and every other row is as before |
| Dispatcher.ReplySeesOriginal | src/pages/api/wf_notification_dispatcher.ts:197 | with no repeated ids, each worker call sees its row as it was before the hand-over |
| Dispatcher.SimulateWorkerCall | src/pages/api/wf_notification_dispatcher.ts:8-21 | a direct POST to the worker: its reply and the row it settles |
| Dispatcher.DispatchDue | src/pages/api/wf_notification_dispatcher.ts:174-197 | at most 100 distinct due rows, all of them when they fit, handed over in order, one reply each |
| Dispatcher.HandOver | src/pages/api/wf_notification_dispatcher.ts:197 | the calls in order: the store is the fold of worker steps, and reply j is the worker's answer in the store the earlier calls left |
| Dispatcher.RepliedExtend | src/pages/api/wf_notification_dispatcher.ts:197 | one more worker call extends the list of matching replies |
| Dispatcher.DispatchOutcome | src/pages/api/wf_notification_dispatcher.ts:174-197 | each dispatched row is settled by its own delivery unless its fetch failed or no bot token is set; other rows are untouched; each reply is the one for a pending row |
| Dispatcher.DispatchPrefixSettles | src/pages/api/wf_notification_dispatcher.ts:197 | every row the hand-over changes leaves `pending`, so no second pending row appears |
| Dispatcher.DispatchKeeps | src/pages/api/wf_notification_dispatcher.ts:178-197 | sent rows are never selected or changed; at most one pending per subscription is kept |
| Dispatcher.DispatchPhase | src/pages/api/wf_notification_dispatcher.ts:174-204 | 500 on query error; at most 100 due rows, each once, all of them when they fit; the store is the worker's steps over them in order and each reply the worker's answer for a pending row; 200 "No pending notifications found." or "Dispatched N notifications."; sent rows untouched; at most one pending kept |
| Dispatcher.Dispatch | src/pages/api/wf_notification_dispatcher.ts:164-210 | 405 for other methods with nothing written; GET runs the renewal fold over at most 50 overdue subscriptions (all when they fit), then the hand-over over the rows as renewal left them, with the replies and store that follow; sent rows untouched; at most one pending kept |
| CreateSubscription.UserTimezone | src/pages/api/action_create_subscription.ts:10-23 | the profile's zone when the lookup returns a non-empty one, UTC otherwise |
| CreateSubscription.NewRow | src/pages/api/action_create_subscription.ts:37-54 | name, payment date, billing cycle, price, currency and notification mode from the form; each optional text `x \|\| null`; the profile zone; `user_id` from `created_by` and `created_by` the column default |
| CreateSubscription.FirstReminder | src/pages/api/action_create_subscription.ts:78-108 | pending, due at local midnight minus the offset in the row's zone, first attempt at the same instant, sent to the form's user |
| CreateSubscription.InsertWithReminder | src/pages/api/action_create_subscription.ts:56-110 | the subscription under a fresh id, and its reminder as its only pending row |
| CreateSubscription.Create | src/pages/api/action_create_subscription.ts:25-112 | 405; 400 naming the first missing field; 500 on an insert error or a date that does not exist, with nothing written; 201 with the row and its one pending reminder |
| CreateSubscription.MissingDateFirst | src/pages/api/__tests__/action_create_subscription.test.ts:50-55 | a form with only a name is refused for `next_payment_date` |
| UpdateSubscription.UpdatedRow | src/pages/api/action_update_subscription.ts:34-50 | name, payment date, billing cycle, price, currency and notification mode from the form; each optional text `x \|\| null`; zone `timezone \|\| 'UTC'`; owner columns kept |
| UpdateSubscription.UpdateSchedule | src/pages/api/action_update_subscription.ts:84-91 | with one of the four offsets, local midnight minus it; otherwise the bare date read as midnight UTC |
| UpdateSubscription.UpdateReminder | src/pages/api/action_update_subscription.ts:93-105 | pending, to the caller, scheduled as `UpdateSchedule`, with no `next_attempt_at` |
| UpdateSubscription.UpdateReminderNeverDispatched | src/pages/api/action_update_subscription.ts:93-105 | the dispatcher's due query never selects the update handler's reminder |
| UpdateSubscription.NoOffsetIgnoresZone | src/pages/api/action_update_subscription.ts:84-91 | with no offset the reminder is at midnight UTC whatever the subscription's zone |
| UpdateSubscription.Reschedule | src/pages/api/action_update_subscription.ts:53-107 | the row is replaced and the subscription's pending rows become the single new reminder |
| UpdateSubscription.Update | src/pages/api/action_update_subscription.ts:9-110 | 405; 400 naming the first missing field; 404 unless the caller owns the row; 500 on an update error; 200 iff authorised and written; nothing written on any error |
| DeleteSubscription.Delete | src/pages/api/action_delete_subscription.ts:8-61 | 405; 400 naming `id` or `user_id`; 404 unless owned; all the subscription's notifications are deleted before the row; 500 leaves the row but not its notifications |
| DeleteSubscription.MissingIdFirst | src/pages/api/action_delete_subscription.ts:13-14 | without an id the error names `id` first |
| LinkTokens.TokenExpiry | src/pages/api/action_generate_telegram_link_token.ts:23 | the token expires exactly one hour after now |
| LinkTokens.Generate | src/pages/api/action_generate_telegram_link_token.ts:14-46 | 405; 400 without a user; the user's old tokens are deleted; on success the user holds exactly the new token; other users' tokens are unchanged |
| LinkContact.TokenUsers | src/pages/api/wf_link_telegram_contact.ts:21-32 | the users named by an unexpired row with the token (`expires_at >= now`) |
| LinkContact.TelegramRow | src/pages/api/wf_link_telegram_contact.ts:37-43 | the upserted contact: the user, provider `telegram`, the chat id |
| LinkContact.TokenSingleUse | src/pages/api/wf_link_telegram_contact.ts:55-58 | once the token is deleted it names nobody |
| LinkContact.LinkedChatResolves | src/pages/api/wf_link_telegram_contact.ts:37-48 | after the upsert, the worker's fallback for a payload naming only the user finds the linked chat |
| LinkContact.Link | src/pages/api/wf_link_telegram_contact.ts:9-70 | 405; 400; 401 for a token query error or an unknown or expired token; 500 on an upsert error with nothing changed; 200 with the user's one telegram contact set to the chat, the token spent, and a payload naming only the user resolving to that chat |
| BatchSender.BatchSettle | src/server/wf_send_notification_job.ts:52-91 | one attempt is final: never pending afterwards; `sent` iff accepted, then with `sent_at` and no error; otherwise the status or fetch error is recorded and `sent_at` kept; other columns untouched |
| BatchSender.ResultOf | src/server/wf_send_notification_job.ts:64-91 | the result names the row and says sent iff accepted |
| BatchSender.AfterBatchSettles | src/server/wf_send_notification_job.ts:39-93 | after a run no due pending row is left, sent rows are unchanged, and no second pending row appears |
| BatchSender.SettleEach | src/server/wf_send_notification_job.ts:39-93 | each selected row is settled by its own outcome and every other row is kept; one result per row |
| BatchSender.SendBatch | src/server/wf_send_notification_job.ts:10-99 | 500 without an endpoint or on a query error; 200 with nothing due; otherwise every due row is settled and counted once |
| SingleSender.BodyOf | src/pages/api/wf_send_notification_job.backup.ts:32-38 | `to` is null when absent; the subject is the title; the text is the body, falling back to the title |
| SingleSender.SingleSettle | src/pages/api/wf_send_notification_job.backup.ts:40-59 | never pending afterwards; `sent` iff accepted, with `sent_at` and the old error kept; otherwise the error is `String(e)` or `http_<status>: <text>` |
| SingleSender.SendOne | src/pages/api/wf_send_notification_job.backup.ts:7-59 | 405, 400, 500 on a query error or an unknown id, 200 "already sent", 500 without an endpoint; otherwise one POST, the row settled, and 200 or 500 by outcome |
| SingleSender.SentIsFinal | src/pages/api/wf_send_notification_job.backup.ts:25-59 | once accepted, a row is never posted again; a call never creates a second pending row |
| Dashboard.MonthlyFactor | src/hooks/use-dashboard-data.ts:33-48 | positive exactly for the four known cycles, zero otherwise |
| Dashboard.FactorMatchesStep | src/hooks/use-dashboard-data.ts:39-47 | for the month-based cycles the factor is one over the months a renewal step advances |
| Dashboard.SpendAppend | src/hooks/use-dashboard-data.ts:29-51 | the total of two lists is the sum of their totals |
| Dashboard.SpendNonNegative | src/hooks/use-dashboard-data.ts:29-51 | with no negative price the monthly spend is not negative |
| Dashboard.SpendPermutation | src/hooks/use-dashboard-data.ts:29-51 | the spend does not depend on the order the rows arrive in |
| Dashboard.MonthlySpend | src/hooks/use-dashboard-data.ts:29-51 | the `forEach` accumulates exactly `Spend` |
| Dashboard.NotPast | src/hooks/use-dashboard-data.ts:55 | exactly the rows whose payment instant is not before now, drawn from the input |
| Dashboard.InsertByPayment | src/hooks/use-dashboard-data.ts:56-58 | inserting into a sorted list keeps it sorted and adds exactly that row |
| Dashboard.SortByPayment | src/hooks/use-dashboard-data.ts:56-58 | sorted by payment instant, and a permutation of its input |
| Dashboard.TakeEarliest | src/hooks/use-dashboard-data.ts:56-59 | the first n rows of a sorted permutation are sorted, drawn from the input, and no row left out is earlier |
| Dashboard.Upcoming | src/hooks/use-dashboard-data.ts:54-59 | min(5, not-past count) rows, none past, sorted, a sub-multiset of the not-past rows, and no row left out is earlier than one kept |
| Dashboard.UpcomingInDateOrder | src/hooks/use-dashboard-data.ts:54-59 | in a known zone the upcoming list is also in payment-date order |
| Dashboard.DashboardFigures | src/hooks/use-dashboard-data.ts:12-65 | the two figures are `Spend` and `Upcoming` of the fetched rows |
| LogoSearch.SubsequencePrefix | src/server/action_logo_search.ts:25 | a prefix of an in-order selection is an in-order selection |
| LogoSearch.Matches | src/server/action_logo_search.ts:20-22 | exactly the catalogue entries whose lowered name includes the query, in catalogue order |
| LogoSearch.Search | src/server/action_logo_search.ts:16-26 | nothing for an empty query; otherwise exactly the first min(3, matches) matches in catalogue order |
| LogoSearch.HandleTrimmed | src/pages/api/action_logo_search.ts:23-35 | 405; 400 for a query that is blank after trimming; else the search for the trimmed query |
| LogoSearch.HandleUntrimmed | src/server/action_logo_search.ts:32-55 | 405; 500 without a body; 400 only for an empty query; else the search for the query as given |
| LogoSearch.BlankQueryDiffers | src/pages/api/action_logo_search.ts:27-28 | a query of white space is refused by one handler and searched by the other |
| LogoSearch.TrimmedQueryAgrees | src/pages/api/action_logo_search.ts:27-30 | an already trimmed query gets the same answer from both handlers |

## Left out

- Audit-log inserts (create, update, delete, renewal, link). They write only to `audit_logs`, which nothing in the core reads.
- The React UI, the auth session, and the `enabled`/`refetchInterval` query options of the dashboard hook.
- The `setTimeout` backoff between Telegram attempts. Only the number and order of attempts are modelled, not the waiting.
- Console logging, the catch-all `500 Internal Server Error` branches for unexpected exceptions, and error `details` fields in responses.
- The body `send`'s POST carries. `TelegramWorker.SendAttempts` records the chat id and text, but not `parse_mode` or `disable_web_page_preview`.
- The batch sender's POST body. It posts `notification.message_payload`, a column none of the schedulers writes, so the model keeps only the outcome of each POST.
- Write errors the handlers never check are taken as successes. These are the renewal pass's delete and insert, the notification inserts of the create and update handlers, the status updates of the worker, the batch sender and the single sender, and the token and notification deletes.
- Concurrency. `Promise.all` over worker calls and over batch POSTs runs in order. Interleaving between calls, or with other requests, is not modelled.
- `.single()` on a query with several matches. Every query keyed by a primary key finds at most one row. Where the key is not unique, one match is chosen (the link token query). A `.single()` that finds no row reports an error, so the worker and the backup sender answer 500 for an unknown id; their `404 notification not found` branches cannot be reached.
- The `profiles` table. Its time-zone lookup is the parameter `profile` of `CreateSubscription.Create`.
- Case folding. `Text.Lower` lowers only ASCII letters, while `toLowerCase` folds all of Unicode.
- Numbers. Prices are exact reals, so JavaScript's floating-point `price * monthlyFactor` is not reproduced.
- `Dashboard.DashboardFigures`: does not model the final `parseFloat(total.toFixed(2))` rounding to cents. The figure is the exact sum.
- Time passing during the dispatcher endpoint. The source reads `DateTime.now()` afresh for the renewal pass, on every test of the renewal loop and for the due query, with database writes awaited in between; the model uses one `now` for all of them.
- Luxon's date-time machinery. Only local midnight per zone and date is modelled (`TimeZones.TzDb`). Daylight-saving gaps, where a local midnight does not exist, are outside `Sound`.
- Dispatcher.Plan: an invalid date or unknown zone is skipped, as the source does. An unknown billing cycle is written back unchanged, with a fresh reminder. The model keeps this.
- CreateSubscription.Create: an unparsable `next_payment_date` (not a real calendar date) is modelled as the insert error the `date` column raises. The form holds an `Option<Date>` rather than free text.
- UpdateSubscription.Update: the same holds for its update. Its `.single()` on the update result is taken to succeed once the ownership query found the row.
- Email delivery and the `notification_mode` column. The worker sends only through Telegram, and no handler branches on the mode.
- `generateToken`'s randomness. The token is a parameter of `LinkTokens.Generate`, and its uniqueness is not assumed.
