# Notification dispatch of the reimbursement workflow, in Dafny

This project models the part of the expense-reimbursement application that sends email:

- the retrying, rate-limited task queue `EnhancedRateLimiter` (lib/rateLimiter.ts);
- the simpler `RateLimiter` and the invitation handler of server/api/admin/invite-users.ts;
- the notification handler of server/api/send-notification.ts;
- the helpers `isImageFile`, `valueUpdater` and `getReceiptSignedUrl` of lib/utils.ts.

It proves the promises these make about pacing, order, retries, settlement and the answers the handlers give.

The two queues run an async drain loop. The loop suspends while it waits out the pacing interval and while a task's operation runs. Each module `…Spec` therefore describes a queue as a state machine on values. A call of `addToQueue`, the end of a pacing wait, the end of a task's operation and the firing of a retry timer are each one transition. The clock (`Date.now()`) and the outcome of every operation are inputs of these transitions. The state also carries logs the program does not keep, because the promises are about them:

- the retry limit each task was submitted with;
- how many times each task was started;
- how each task's promise was settled;
- the start time of every execution;
- the order in which tasks were first started.

An invariant of each machine is proved to hold in every state a fresh queue can reach (`Reachable`). The promises follow from it as lemmas.

The classes `RateLimiter.EnhancedRateLimiter` and `InviteLimiter.RateLimiter` have the fields of the source's classes and update them in place. In `RateLimiter.EnhancedRateLimiter`, the constructor and the methods `AddToQueue`, `Wake`, `Complete` and `FireRetryTimer` each perform exactly one transition of the state machine and keep the invariant, so the lemmas carry over to them. `Push`, `ProcessQueue`, `LoopTop`, `Begin` and `Settle` are the private steps those methods are built from: each is proved to perform its own step function, and none promises the invariant by itself. `GetQueueLength` and `IsProcessing` only read the state. In `InviteLimiter.RateLimiter`, the constructor and the methods `AddToQueue`, `Wake` and `Complete` each perform one transition and keep the invariant; `ProcessQueue`, `LoopTop` and `Begin` are private steps, proved to perform their step functions only.

The simple limiter is the enhanced one with no retries: `InviteLimiterSpec.SameAsNoRetries` proves that every run of it is a run of `EnhancedRateLimiter` in which each task is submitted with `maxRetries` 0, with the same queue, loop, start times and settlements.

The handlers are pure functions of the request and of what the external services answered. They return the response together with the requests they made: the invitations they asked for, the email they sent and the rows they logged.

Two points where the behaviour differs from what one might expect:

- A retried task goes to the very front of the queue (lib/rateLimiter.ts:91), ahead of every task queued before the retry was reinserted. It does not go behind them.
- Both handlers answer their own 400 refusals with 500, because the refusals are thrown inside the `try` whose `catch` replaces every error.

## Model

| member | source | states |
|---|---|---|
| RateLimiterSpec.MakeConfig | lib/rateLimiter.ts:29-33 | `minInterval * requestsPerSecond == 1000`, `maxRetries` defaults to 3 and `retryDelay` to 5000 |
| RateLimiterSpec.EmailRateLimiterSettings | lib/rateLimiter.ts:112 | the shared limiter starts at most one task per 1000 ms, retries 3 times, 5000 ms apart |
| RateLimiterSpec.Init | lib/rateLimiter.ts:22-24 | defines a new limiter: empty queue, `processing` false, `lastRequestTime` 0, no timers, empty logs; `InitInv` states that it satisfies the invariant |
| RateLimiterSpec.Push | lib/rateLimiter.ts:37-46 | defines the push of a fresh item (no failures, given or default limit) at the back, logging its limit; `AddToQueueAppends` states its effect |
| RateLimiterSpec.ProcessQueue | lib/rateLimiter.ts:55-57 | defines entry to `processQueue`: nothing while `processing`, else set it and go to the loop's top; `ProcessQueueInv` states that it keeps the invariant |
| RateLimiterSpec.LoopTop | lib/rateLimiter.ts:59-76 | defines the loop test: leave with `processing` cleared on an empty queue, wait until `lastRequestTime + minInterval` when the last start is too recent, start the front task otherwise; `LoopTopInv` and `StartsArePaced` state its properties |
| RateLimiterSpec.Begin | lib/rateLimiter.ts:69-72 | defines the shift and start of the front task at `now`, logging the start; `BeginInv` states that it keeps the invariant |
| RateLimiterSpec.AddToQueue | lib/rateLimiter.ts:35-48 | defines `addToQueue` as the push followed by entry to `processQueue`; `AddToQueueAppends` and `AddToQueueInv` state its properties |
| RateLimiterSpec.Wake | lib/rateLimiter.ts:63-72 | defines the end of the pacing wait: start the front task at the wake-up time; `WakeInv` states that it keeps the invariant |
| RateLimiterSpec.Settle | lib/rateLimiter.ts:79-98 | defines the settling of the running task: resolve on success, schedule a retry `retryDelay` later when `retryCount < maxRetries`, reject otherwise; `FailureHandling` and `SettleOnce` state its properties |
| RateLimiterSpec.Finish | lib/rateLimiter.ts:79-100 | defines the end of a task's operation as `Settle` followed by the loop's top; `FinishInv` states that it keeps the invariant |
| RateLimiterSpec.Unshift | lib/rateLimiter.ts:91 | defines the reinsertion of the earliest timer's task at the front of the queue; `RetryGoesFirst` states its effect |
| RateLimiterSpec.FireRetry | lib/rateLimiter.ts:90-93 | defines a retry timer's callback as the unshift followed by entry to `processQueue`; `FireRetryInv` and `RetryGoesFirst` state its properties |
| RateLimiterSpec.Enabled | lib/rateLimiter.ts:35-100 | defines which events can happen: time never goes back, a wait ends no earlier than it was set for, only a running task finishes, timers fire in order once due; `NextInv` and `RunInv` state that every enabled event keeps the invariant |
| RateLimiterSpec.InitInv | lib/rateLimiter.ts:22-24 | a new limiter satisfies the invariant |
| RateLimiterSpec.AddToQueueInv | lib/rateLimiter.ts:35-48 | `addToQueue` keeps the invariant and only extends the logs |
| RateLimiterSpec.ProcessQueueInv | lib/rateLimiter.ts:55-57 | entering `processQueue` keeps the invariant, whether a loop is already active or not |
| RateLimiterSpec.LoopTopInv | lib/rateLimiter.ts:59-67 | the loop test, the pacing wait and the end of the loop keep the invariant |
| RateLimiterSpec.BeginInv | lib/rateLimiter.ts:69-72 | starting the front task, at least `minInterval` after the last start, keeps the invariant and appends a paced start |
| RateLimiterSpec.WakeInv | lib/rateLimiter.ts:63-72 | the end of the pacing wait keeps the invariant |
| RateLimiterSpec.FinishInv | lib/rateLimiter.ts:79-100 | settling the running task (resolve, retry or reject) keeps the invariant |
| RateLimiterSpec.FireRetryInv | lib/rateLimiter.ts:90-93 | a retry timer's unshift and re-entry of `processQueue` keep the invariant |
| RateLimiterSpec.SettleOnce | lib/rateLimiter.ts:81-98 | the running task is not yet settled, and after it settles every unsettled task is live exactly once |
| RateLimiterSpec.NextInv | lib/rateLimiter.ts:35-100 | every event that can happen keeps the invariant; settlements are never changed and logs only grow |
| RateLimiterSpec.RunInv | lib/rateLimiter.ts:35-100 | the invariant holds after any sequence of events |
| RateLimiterSpec.Reachable | lib/rateLimiter.ts:22-100 | every state a new limiter reaches satisfies the invariant |
| RateLimiterSpec.AtMostOnce | lib/rateLimiter.ts:69-93 | an item is in the queue at most once, and never while it runs or waits for its retry |
| RateLimiterSpec.SingleFlight | lib/rateLimiter.ts:55-76 | `processing` is set exactly while a drain loop is active; it is clear only when the queue is empty; a non-empty queue always has a loop working on it |
| RateLimiterSpec.PacedSpan | lib/rateLimiter.ts:60-71 | paced starts `i <= j` are at least `(j - i) * minInterval` apart |
| RateLimiterSpec.StartsArePaced | lib/rateLimiter.ts:60-71 | consecutive executions start at least `minInterval` apart, and the last start is `lastRequestTime` |
| RateLimiterSpec.FifoFirstStarts | lib/rateLimiter.ts:46-69 | fresh submissions start for the first time in submission order, and wait in that order |
| RateLimiterSpec.RetryBound | lib/rateLimiter.ts:84-93 | `retryCount <= maxRetries` for every live item; an item waiting for its retry has failed at least once |
| RateLimiterSpec.AttemptsAtSettlement | lib/rateLimiter.ts:79-98 | a settled task was started between 1 and `maxRetries + 1` times, a rejected one exactly `maxRetries + 1` times; a submitted task is settled exactly when it is no longer live |
| RateLimiterSpec.SettlesOnce | lib/rateLimiter.ts:81-97 | a task's promise is settled at most once, and later events never change a settlement |
| RateLimiterSpec.AddToQueueAppends | lib/rateLimiter.ts:35-47 | exactly one fresh item (no failures, given or default limit) goes to the back; an active loop is left alone; an idle one starts or waits for it |
| RateLimiterSpec.RetryGoesFirst | lib/rateLimiter.ts:90-93 | the retried task goes to the front, ahead of everything queued, and a loop is made to drain it |
| RateLimiterSpec.FailureHandling | lib/rateLimiter.ts:79-100 | success resolves; a failure schedules a retry `retryDelay` later, with one more failure counted, exactly when `retryCount < maxRetries`, and rejects otherwise |
| RateLimiter.EnhancedRateLimiter.constructor | lib/rateLimiter.ts:22-33 | the settings of `MakeConfig`, an empty idle queue, invariant established |
| RateLimiter.EnhancedRateLimiter.AddToQueue | lib/rateLimiter.ts:35-48 | performs the `AddToQueue` transition, keeps the invariant, returns a fresh id |
| RateLimiter.EnhancedRateLimiter.Push | lib/rateLimiter.ts:37-46 | performs the push of a fresh item |
| RateLimiter.EnhancedRateLimiter.ProcessQueue | lib/rateLimiter.ts:55-57 | performs `ProcessQueue`: nothing when a loop is active |
| RateLimiter.EnhancedRateLimiter.LoopTop | lib/rateLimiter.ts:59-76 | performs the loop test and pacing decision |
| RateLimiter.EnhancedRateLimiter.Begin | lib/rateLimiter.ts:69-72 | performs the shift and start of the front task |
| RateLimiter.EnhancedRateLimiter.Wake | lib/rateLimiter.ts:63-72 | performs the end of the pacing wait, keeps the invariant |
| RateLimiter.EnhancedRateLimiter.Complete | lib/rateLimiter.ts:79-100 | performs `executeTask`'s settling, keeps the invariant |
| RateLimiter.EnhancedRateLimiter.FireRetryTimer | lib/rateLimiter.ts:90-93 | performs the retry timer's callback, keeps the invariant |
| RateLimiter.EnhancedRateLimiter.GetQueueLength | lib/rateLimiter.ts:102-104 | the queue's length; when positive, a loop is active |
| RateLimiter.EnhancedRateLimiter.IsProcessing | lib/rateLimiter.ts:106-108 | set exactly while a loop is active; clear only with an empty queue |
| InviteLimiterSpec.MinInterval | server/api/admin/invite-users.ts:11-13 | `minInterval * requestsPerSecond == 1000` |
| InviteLimiterSpec.Init | server/api/admin/invite-users.ts:6-8 | defines a new limiter: empty queue, `processing` false, `lastRequestTime` 0, empty logs; `Reachable` states that it and every state it reaches satisfy the invariant |
| InviteLimiterSpec.ProcessQueue | server/api/admin/invite-users.ts:29-31 | defines entry to `processQueue`: nothing while `processing`, else set it and go to the loop's top; `ProcessQueueInv` states that it keeps the invariant |
| InviteLimiterSpec.LoopTop | server/api/admin/invite-users.ts:33-50 | defines the loop test: leave on an empty queue, wait until `lastRequestTime + minInterval` when the last start is too recent, start the front task otherwise; `LoopTopInv` and `StartsArePaced` state its properties |
| InviteLimiterSpec.Begin | server/api/admin/invite-users.ts:43-46 | defines the shift and start of the front task, logging the start; `BeginOrder` and `BeginInv` state its properties |
| InviteLimiterSpec.AddToQueue | server/api/admin/invite-users.ts:15-27 | defines `addToQueue` as the push of the next id followed by entry to `processQueue`; `PushOrder` and `AddToQueueInv` state its properties |
| InviteLimiterSpec.Wake | server/api/admin/invite-users.ts:37-46 | defines the end of the pacing wait: start the front task at the wake-up time; `WakeInv` states that it keeps the invariant |
| InviteLimiterSpec.Finish | server/api/admin/invite-users.ts:18-23 | defines the end of the wrapped task: resolve or reject at once, never retry, then the loop's top; `FailureRejects` and `FinishInv` state its properties |
| InviteLimiterSpec.BeginOrder | server/api/admin/invite-users.ts:43-46 | shifting the front id starts the next id in submission order |
| InviteLimiterSpec.PushOrder | server/api/admin/invite-users.ts:17 | pushing the next id keeps the queue in submission order |
| InviteLimiterSpec.BeginInv | server/api/admin/invite-users.ts:43-46 | starting the front task keeps the invariant |
| InviteLimiterSpec.LoopTopInv | server/api/admin/invite-users.ts:33-41 | the loop test and the pacing decision keep the invariant |
| InviteLimiterSpec.ProcessQueueInv | server/api/admin/invite-users.ts:29-31 | entering `processQueue` keeps the invariant |
| InviteLimiterSpec.AddToQueueInv | server/api/admin/invite-users.ts:15-27 | `addToQueue` keeps the invariant |
| InviteLimiterSpec.WakeInv | server/api/admin/invite-users.ts:37-46 | the end of the pacing wait keeps the invariant |
| InviteLimiterSpec.FinishInv | server/api/admin/invite-users.ts:18-23 | settling the running task keeps the invariant |
| InviteLimiterSpec.NextInv | server/api/admin/invite-users.ts:15-51 | every event keeps the invariant and only extends the logs |
| InviteLimiterSpec.RunInv | server/api/admin/invite-users.ts:15-51 | the invariant holds after any sequence of events |
| InviteLimiterSpec.Reachable | server/api/admin/invite-users.ts:5-51 | every reachable state satisfies the invariant |
| InviteLimiterSpec.FifoOnce | server/api/admin/invite-users.ts:17-46 | tasks start in submission order, each exactly once; those not yet started wait in order |
| InviteLimiterSpec.SettledAfterOneRun | server/api/admin/invite-users.ts:17-24 | every started task except the running one is settled, once, and stays so |
| InviteLimiterSpec.SingleFlight | server/api/admin/invite-users.ts:29-50 | `processing` is set exactly while a loop is active, and clear only with an empty queue |
| InviteLimiterSpec.StartsArePaced | server/api/admin/invite-users.ts:34-46 | consecutive starts are at least `minInterval` apart |
| InviteLimiterSpec.LoopTopSim | server/api/admin/invite-users.ts:33-50 | the loop test of this limiter and of the enhanced one (lib/rateLimiter.ts:59-76) lead to agreeing states |
| InviteLimiterSpec.ProcessQueueSim | server/api/admin/invite-users.ts:29-31 | entering `processQueue` in both limiters leads to agreeing states |
| InviteLimiterSpec.FinishSim | server/api/admin/invite-users.ts:18-23 | a task's end settles the same promise the same way as the enhanced limiter with no retry left (lib/rateLimiter.ts:84-97), and no retry is scheduled |
| InviteLimiterSpec.StepSim | server/api/admin/invite-users.ts:15-50 | every event this limiter can take, the enhanced one can take too (a submission with `maxRetries` 0), and the states still agree |
| InviteLimiterSpec.RunSim | server/api/admin/invite-users.ts:15-50 | from agreeing states, every run of this limiter is a run of the enhanced one that ends in agreeing states |
| InviteLimiterSpec.SameAsNoRetries | server/api/admin/invite-users.ts:5-51 | `RateLimiter` behaves as `EnhancedRateLimiter` with `maxRetries` 0: same queue order, loop, start times and settlements, no retry ever pending |
| InviteLimiterSpec.FailureRejects | server/api/admin/invite-users.ts:18-23 | a failing operation rejects its promise at once and is not queued again |
| InviteLimiter.RateLimiter.constructor | server/api/admin/invite-users.ts:6-13 | `minInterval` of `MinInterval`, an empty idle queue, invariant established |
| InviteLimiter.RateLimiter.AddToQueue | server/api/admin/invite-users.ts:15-27 | performs `AddToQueue`, keeps the invariant |
| InviteLimiter.RateLimiter.ProcessQueue | server/api/admin/invite-users.ts:29-31 | performs `ProcessQueue` |
| InviteLimiter.RateLimiter.LoopTop | server/api/admin/invite-users.ts:33-50 | performs the loop test and the pacing decision |
| InviteLimiter.RateLimiter.Begin | server/api/admin/invite-users.ts:43-46 | performs the shift and start |
| InviteLimiter.RateLimiter.Wake | server/api/admin/invite-users.ts:37-46 | performs the end of the pacing wait, keeps the invariant |
| InviteLimiter.RateLimiter.Complete | server/api/admin/invite-users.ts:18-23 | performs the settling of the running task, keeps the invariant |
| InviteUsers.SiteUrl | server/api/admin/invite-users.ts:94-103 | a configured site URL wins; otherwise the result starts with "http"; with no header it is the default |
| InviteUsers.SiteUrlFromHeader | server/api/admin/invite-users.ts:96-103 | origin (else host) is kept if it starts with "http", else prefixed with `https://`; resolving again changes nothing |
| InviteUsers.ValidEmail | server/api/admin/invite-users.ts:89 | defines the accepted email: a string, non-empty and containing '@'; `RequestFor` and `InviteTask` state what follows from it |
| InviteUsers.RedirectUrl | server/api/admin/invite-users.ts:105 | the redirect is exactly the site URL followed by `/signup` |
| InviteUsers.RequestFor | server/api/admin/invite-users.ts:89-110 | an invitation is requested exactly for a non-empty email containing '@', with the redirect |
| InviteUsers.InviteTask | server/api/admin/invite-users.ts:85-142 | only a `null` user throws; an empty email or one without '@' gives "Invalid email"; success exactly when the email is valid, the invite succeeded and the insert did not throw; a success carries the message "Invitation sent successfully"; a failed invite gives the auth service's message; a thrown invite or insert, and a non-string truthy email, give "Unknown error during invitation" |
| InviteUsers.Requests | server/api/admin/invite-users.ts:84-110 | at most one invitation per user |
| InviteUsers.RequestsFrom | server/api/admin/invite-users.ts:84-110 | every requested invitation comes from a user with a valid email, and every such user gets one |
| InviteUsers.RequestsInOrder | server/api/admin/invite-users.ts:84-110 | the invitations for `a + b` are those for `a` followed by those for `b`, so they keep the order of the users |
| InviteUsers.SuccessCount | server/api/admin/invite-users.ts:146 | the count of successes is at most the number of results |
| InviteUsers.SuccessCountPositive | server/api/admin/invite-users.ts:146-149 | the count is positive exactly when some result succeeded |
| InviteUsers.SuccessCountAll | server/api/admin/invite-users.ts:146 | the count equals the number of results exactly when all succeeded |
| InviteUsers.Summary | server/api/admin/invite-users.ts:151 | defines the message "Successfully sent m of n invitations"; `SummaryReportsCounts` states that it determines both counts |
| InviteUsers.SummaryReportsCounts | server/api/admin/invite-users.ts:151 | the summary message determines both counts |
| InviteUsers.Handle | server/api/admin/invite-users.ts:57-160 | non-array `users` and a `null` user give 500 "Failed to send invitations"; otherwise results keep the order of `users`, `success` is `successCount > 0`, and the message reports `successCount` of `users.length` |
| SendNotification.Complete | server/api/send-notification.ts:30-109 | defines a complete request: a recipient, a known type and that type's required fields |
| SendNotification.Check | server/api/send-notification.ts:30-109 | a request is accepted exactly when it is complete |
| SendNotification.RecipientCheckedFirst | server/api/send-notification.ts:30-35 | a missing recipient is refused first, whatever else the body holds |
| SendNotification.ConsolidatedFields | server/api/send-notification.ts:37-43 | a consolidated notification is refused exactly when `claimIds`, `claimsDetails` or `htmlContent` is missing |
| SendNotification.SingleFieldsBeforeType | server/api/send-notification.ts:44-51 | every other type, unknown ones included, needs `claimId` and `claimDetails`, checked before the type |
| SendNotification.KnownType | server/api/send-notification.ts:63-109 | defines the five types the `switch` accepts; `Subject` and `Check` state that exactly these get a subject and are accepted |
| SendNotification.Subject | server/api/send-notification.ts:63-109 | a subject exists exactly for the five accepted types |
| SendNotification.SubjectsDistinct | server/api/send-notification.ts:63-103 | different types get different subjects |
| SendNotification.Content | server/api/send-notification.ts:63-103 | consolidated mail carries the caller's HTML verbatim; submission, admin verification, manager approval and rejection each use their own template, with the recipient's name, the claim details and the employee's name (the reason for a rejection) |
| SendNotification.Record | server/api/send-notification.ts:129-148 | a row has the claim id, the recipient, the request's `notification_type`, status "sent", and `sent_by` is `rejectedBy` or null |
| SendNotification.Records | server/api/send-notification.ts:125-149 | defines the rows written: one per claim id for a consolidated notification, else one for `claimId`; `RecordsPerClaim` states it |
| SendNotification.RecordsPerClaim | server/api/send-notification.ts:125-149 | one row per claim id, in order, for a consolidated notification; exactly one row for `claimId` otherwise |
| SendNotification.Handle | server/api/send-notification.ts:11-159 | every failure is 500 "Failed to send notification" with no rows; refused requests send nothing; accepted ones send the right email, from "Gibraltar Reimbursement <emailFrom>", and log the rows only when the mail service accepted it |
| SendNotification.SuccessIffSent | server/api/send-notification.ts:113-151 | success exactly when the checks pass and the mail service accepts; rows are logged only on success |
| Strings.StartsWith | server/api/admin/invite-users.ts:99 | defines `startsWith`: the prefix is the string's first characters; `SiteUrlFromHeader` relies on it |
| Strings.EndsWith | lib/utils.ts:65 | defines `endsWith`: the suffix is the string's last characters; `EndsWithAnyExists` and `ExtensionMakesImage` rely on it |
| Strings.Lower | lib/utils.ts:64 | the result has the input's length and each character lower-cased (ASCII capitals move 32 down) |
| Strings.NatToString | server/api/admin/invite-users.ts:151 | prints a count as at least one decimal digit, without a leading zero; `ParseNatToString` states that it reads back |
| Strings.ParseNatToString | server/api/admin/invite-users.ts:151 | reading a printed count back gives the count |
| Strings.LowerIgnoresCase | lib/utils.ts:64 | names differing only in letter case lower-case alike |
| Utils.EndsWithAny | lib/utils.ts:65 | defines `exts.some(ext => name.endsWith(ext))`; `EndsWithAnyExists` states its meaning |
| Utils.EndsWithAnyExists | lib/utils.ts:65 | `some(endsWith)` holds exactly when the name ends with one of the extensions |
| Utils.IsImageFile | lib/utils.ts:62-66 | true exactly when the lower-cased name ends with one of `.jpg .jpeg .png .gif .webp .bmp .svg` |
| Utils.IsImageFileIgnoresCase | lib/utils.ts:64 | changing the case of letters never changes the answer |
| Utils.ExtensionMakesImage | lib/utils.ts:62-66 | any name followed by a listed extension, in any case, is an image |
| Utils.NoDotNoImage | lib/utils.ts:62-66 | every extension begins with its dot, so a name without a dot is never an image |
| Utils.IsImageFileExamples | lib/utils.ts:62-66 | "Receipt.JPG" is an image; a bare "jpg" is not |
| Utils.Apply | lib/utils.ts:10-15 | defines the new value: `f(old)` for a function updater, the value otherwise; `ApplyLaws` and `ValueUpdater` state its properties |
| Utils.ApplyLaws | lib/utils.ts:10-15 | setting a value twice is setting it once; two function updates compose |
| Utils.ValueUpdater | lib/utils.ts:10-15 | the ref holds `f(old)` for a function updater and the value otherwise |
| Utils.GetReceiptSignedUrl | lib/utils.ts:23-57 | no path, no client or no storage give `{null, false}` without a request; errors give `{null, false}`; otherwise `isImage` is `isImageFile(path)` and the link is the signed URL when there is one |
| Utils.ImageOnlyForImageFiles | lib/utils.ts:47-52 | a receipt is reported as an image only when its path names an image file |

## Left out

- `generateId` (lib/rateLimiter.ts:51-53) draws a random string; the model numbers items with a counter, so ids never repeat.
- `Date.now()` and the timers are inputs. A pacing wait ends no earlier than it was set for, and a retry timer fires no earlier than its due time. The rounding and early firing of real timers are not modelled.
- The second `Date.now()` of line 71 (and of invite-users.ts:45). When the loop does not wait, it is taken to read the same time as line 60, because no await lies between them. After a pacing wait (lines 64-66), the loop resumes at the time of the `PacingElapsed` event, and line 71 is taken to read that time: the model does not separate the wake-up from the reading that follows it.
- `minInterval` is an exact rational; floating-point rounding of `1000 / requestsPerSecond` is not modelled.
- RateLimiterSpec.MakeConfig: requires `requestsPerSecond > 0`; zero or negative rates (an infinite or negative interval) are not modelled.
- RateLimiterSpec.MakeConfig: `maxRetries` and `retryDelay` are natural numbers; negative or fractional values are not modelled.
- Retry timers fire in the order they were set. All of them have the same delay, so that is also the order of their due times.
- The operations queued (`fn`) are not modelled; each run's outcome (value or error) is an input. Promise callbacks and `console` output are not modelled.
- RateLimiter.EnhancedRateLimiter.Wake: the `if (task)` test of line 70 is always true under the invariant, because the queue cannot empty during a pacing wait. The method therefore omits the false branch; the state-machine function keeps it.
- InviteUsers.Handle: the auth service's and the database's answers are inputs, one per user. The handler is not composed with the limiter's schedule: that invitations go out one by one in the order of `users` follows from `InviteLimiterSpec.FifoOnce`, not from a lemma about `Handle`.
- InviteUsers.Email: an array as `email` (where `includes` tests its elements) is not modelled. Other non-string values are `Absent` (falsy) or `Other` (truthy).
- Creating the Supabase clients, `useRuntimeConfig`, `readBody` parsing and the users row's time stamps are not modelled.
- SendNotification.Content: the four templates of lib/notifications.ts are not part of this model; the email names the template and its arguments.
- SendNotification.Handle: `sent_at` time stamps are left out. Errors returned by the log inserts are ignored, as in the source. An insert that throws is not modelled.
- SendNotification.Fields: a truthy `claimIds` that is not an array is not modelled. In the source, its `map` throws after the email has gone out.
- Strings.Lower: lower-cases ASCII letters only. This does not change `isImageFile`: the extensions are ASCII. The only non-ASCII characters that lower-case to ASCII letters are U+212A (to "k", absent from every extension) and U+0130 (to "i" followed by U+0307, which cannot complete an extension).
- `cn` (lib/utils.ts:6-8) is class-name merging for the UI and is not modelled.
- The emptiness of string fields stands for JavaScript falsiness: a missing, `null` or empty value is `""`.
