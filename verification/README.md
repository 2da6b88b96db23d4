# Expiry reminders: a Dafny model

This project models the decision logic of a household product-expiry tracker.
A user lists products with an expiry date, a channel (email or SMS) and a lead
time ("1 week before", ...). A scheduler then checks the list once when it is
mounted and every hour afterwards. Each check sends at most one notification
per product whose reminder is due. Reminders fire on an exact day count, and
the rounded-up count keeps its value for 24 hours. So a due product is
reminded at every hourly check in that window, up to 24 times
(`Lifecycle.DueAtEveryCheckOfTheDay`).

Modules, bottom-up:

- `Common`: `Option`, `Channel` (`Email | Sms`), and `Present`, the JavaScript
  truthiness of an optional contact string (defined and non-empty).
- `Expiry`: days until expiry as the ceiling of the millisecond difference
  over 86 400 000. `DayCount` has a `NotANumber` case because a date string
  that does not parse makes the whole computation NaN.
- `Evaluator`: the lead-time setting, as the stored string and as an enum
  with an `Unknown` case, plus the lead-days table (30, 7, 5, 2, 1, 0).
  `ShouldSendNotification` is the source's switch, which fires on exact
  equality only.
- `Scheduler`: the scheduler's `Product` (with optional `userEmail` /
  `userPhone`) and the verdict for one product (`Evaluate`). `Pass` is the
  dispatches of one pass as a pure function. `CheckExpiryAndNotify` is the
  sequential loop that calls a notifier and carries on whatever the notifier
  answers.
- `Lifecycle`: the effect as a two-state timer (`Stopped | Running`).
  `Start` is mounting, `Advance` lets time run, `Cleanup` clears the interval.
  When the product list changes, the hook's effect dependencies change, which
  is `Cleanup` followed by a fresh `Start`.
- `Decimal`: decimal text of naturals and reading it back, used by the label.
- `GetNotified`: the tracking page. It covers the guarded append, removal by
  id, the four colour bands and the status label.

Inputs that the source reads from the environment are parameters. "Now" is an
integer millisecond timestamp. The new product id is passed to `HandleSubmit`.
Parsing of expiry-date strings is a function `string -> Option<int>`, where
`None` stands for an invalid date. The notifier is a function from a call's
position and its dispatch to `Sent | Failed | Threw`, so repeated identical
sends may get different answers.

The model makes two divergences between the page and the scheduler visible:

- The page's product has no contact fields
  (`src/pages/GetNotified.tsx:5-11`). `GetNotified.PageProductsNeverDispatch`
  proves that such products, handed to the scheduler, never produce a
  dispatch.
- The page offers `5_minutes_before` and never offers `same_day`. The
  evaluator knows `same_day` and ignores `5_minutes_before`.
  `GetNotified.OptionsVersusEvaluator` and `Evaluator.FiveMinutesNeverFires`
  prove both facts.

The model follows the code in three places where a reader might expect otherwise:

- Days are computed from the raw millisecond difference and rounded up. The
  code does not truncate to calendar days.
- Contact fields are optional and checked at dispatch time. Creation does not
  validate them.
- Each send is awaited in turn inside the loop.

## Model

| member | source | states |
|---|---|---|
| Expiry.CeilDays | src/hooks/useNotificationScheduler.ts:69-70 | the result k is the ceiling: (k-1) days < difference <= k days |
| Expiry.DaysUntilExpiry | src/hooks/useNotificationScheduler.ts:66-71 | NaN exactly when the expiry does not parse; otherwise the ceiling bracket on expiry - now |
| Expiry.CeilDaysUnique | src/hooks/useNotificationScheduler.ts:70 | the ceiling is the only integer satisfying the bracket |
| Expiry.SameInstantIsZero | src/hooks/useNotificationScheduler.ts:66-71 | zero difference gives 0 days |
| Expiry.WholeDays | src/hooks/useNotificationScheduler.ts:66-71 | a difference of exactly k days (any sign) gives k |
| Expiry.WithinOneDay | src/hooks/useNotificationScheduler.ts:66-71 | any difference in (0, 1 day] gives 1 |
| Expiry.PastIsNotPositive | src/hooks/useNotificationScheduler.ts:66-71 | a negative difference gives at most 0 |
| Expiry.Monotonic | src/hooks/useNotificationScheduler.ts:66-71 | a larger expiry - now difference (later expiry, earlier now, or both) never gives fewer days |
| Evaluator.ParseFrequency | src/hooks/useNotificationScheduler.ts:74-89 | a stored string maps to its setting and back to itself; it is Unknown exactly when it is none of the six names |
| Evaluator.ShouldSendNotification | src/hooks/useNotificationScheduler.ts:73-90 | fires exactly when the day count equals the lead-days entry of the parsed setting; never on NaN |
| Evaluator.ParseName | src/hooks/useNotificationScheduler.ts:74-86 | parsing inverts naming for every well-formed setting |
| Evaluator.FiresExactlyOnLeadDay | src/hooks/useNotificationScheduler.ts:75-86 | a known setting fires at d days left if and only if d is its lead time (30, 7, 5, 2, 1, 0) |
| Evaluator.UnknownNeverFires | src/hooks/useNotificationScheduler.ts:87-88 | any other string never fires, for every day count |
| Evaluator.FiveMinutesNeverFires | src/hooks/useNotificationScheduler.ts:87-88 | `5_minutes_before` is Unknown and never fires |
| Evaluator.NotANumberNeverFires | src/hooks/useNotificationScheduler.ts:73-89 | an unparsable expiry never fires |
| Evaluator.FiresOnAtMostOneDay | src/hooks/useNotificationScheduler.ts:73-89 | a setting fires on at most one day count |
| Scheduler.Evaluate | src/hooks/useNotificationScheduler.ts:20-45 | a dispatch exactly when due and the channel's contact is present; it goes over the product's channel and copies name, expiry date, contacts and the days left computed in this pass |
| Scheduler.Pass | src/hooks/useNotificationScheduler.ts:19-46 | as many dispatches as eligible products (at most one each); every dispatch is channel-gated |
| Scheduler.PassAppend | src/hooks/useNotificationScheduler.ts:19-46 | a pass over a + b is the pass over a followed by the pass over b (list order) |
| Scheduler.PassSingle | src/hooks/useNotificationScheduler.ts:21-45 | one product gives exactly one dispatch if eligible and none otherwise |
| Scheduler.PassProvenance | src/hooks/useNotificationScheduler.ts:19-45 | every dispatch is the verdict on some listed product |
| Scheduler.PassComplete | src/hooks/useNotificationScheduler.ts:19-45 | every eligible listed product gets its dispatch |
| Scheduler.MissingContactSilences | src/hooks/useNotificationScheduler.ts:35-41 | a due product without the matching contact produces nothing |
| Scheduler.CheckExpiryAndNotify | src/hooks/useNotificationScheduler.ts:16-47 | the loop issues exactly the pass's dispatches, one per eligible product, whatever each send returns or throws; the k-th send's outcome, which may depend on the call's position as well as its payload, is recorded with it |
| Lifecycle.Start | src/hooks/useNotificationScheduler.ts:51-58 | empty list: no check, no interval; otherwise one immediate check and an interval armed one hour later |
| Lifecycle.Cleanup | src/hooks/useNotificationScheduler.ts:60 | teardown leaves the timer stopped |
| Lifecycle.Advance | src/hooks/useNotificationScheduler.ts:58 | a stopped timer never fires; a running one stays running, re-armed one hour per firing, at a time past the target |
| Lifecycle.AdvanceTimes | src/hooks/useNotificationScheduler.ts:58 | the k-th firing of a running timer is at its armed time + k hours, never past the target time |
| Lifecycle.AdvanceSplit | src/hooks/useNotificationScheduler.ts:58 | advancing in two legs fires the same checks as advancing in one |
| Lifecycle.DispatchesAt | src/hooks/useNotificationScheduler.ts:55-58 | the reminders of the passes run at the given check times: none without checks, and every one channel-gated |
| Lifecycle.DueAtEveryCheckOfTheDay | src/hooks/useNotificationScheduler.ts:20-23 | with a whole number of days to go, a product due now is due at each of the next 24 hourly checks (k = 0..23) and at none of the 24 after |
| Lifecycle.DispatchesAtAppend | src/hooks/useNotificationScheduler.ts:55-58 | the dispatches of consecutive checks concatenate in time order |
| Lifecycle.EmptyListNeverChecks | src/hooks/useNotificationScheduler.ts:52 | an empty list never checks, now or later |
| Lifecycle.HourlyChecks | src/hooks/useNotificationScheduler.ts:54-58 | a non-empty list is checked at now + k hours, for k = 0 .. (until - now) / 1 h |
| Lifecycle.CleanupSilences | src/hooks/useNotificationScheduler.ts:60 | after cleanup no new check starts, so no new pass dispatches anything |
| Lifecycle.MilkExample | src/hooks/useNotificationScheduler.ts:19-58 | milk due in 7 days on "1 week before" is emailed with 7 days left by the immediate check and again an hour later (no deduplication) |
| Decimal.FromNat | src/pages/GetNotified.tsx:174-177 | the decimal text of a count is non-empty and all digits, a single digit below 10, and starts with '0' only for zero (no padding) |
| Decimal.ToNatFromNat | src/pages/GetNotified.tsx:174-177 | reading the text of n gives n |
| Decimal.FromNatInjective | src/pages/GetNotified.tsx:174-177 | distinct counts have distinct texts |
| GetNotified.HandleSubmit | src/pages/GetNotified.tsx:22-40 | with a missing name or date nothing changes; otherwise exactly one product, copied from the form with the new id, is appended after the unchanged list, and the form is reset to its initial values |
| GetNotified.RemoveProduct | src/pages/GetNotified.tsx:42-44 | the result is shorter than the list by exactly the number of products with that id |
| GetNotified.RemoveMembership | src/pages/GetNotified.tsx:42-44 | a product survives removal if and only if it was listed and its id differs |
| GetNotified.RemoveAppend | src/pages/GetNotified.tsx:42-44 | removal works piecewise on a concatenation, so relative order is kept |
| GetNotified.RemoveAbsent | src/pages/GetNotified.tsx:42-44 | removing an id no product has changes nothing |
| GetNotified.RemoveIdempotent | src/pages/GetNotified.tsx:42-44 | removing twice equals removing once |
| GetNotified.SubmitThenRemove | src/pages/GetNotified.tsx:22-44 | submitting under a fresh id and removing that id restores the list |
| GetNotified.GetStatusColor | src/pages/GetNotified.tsx:54-59 | red iff days < 0, orange iff 0..3, yellow iff 4..7, green iff > 7; NaN shows green |
| GetNotified.ColorMonotone | src/pages/GetNotified.tsx:54-59 | fewer days never shows a less urgent colour |
| GetNotified.StatusLabel | src/pages/GetNotified.tsx:173-178 | the label begins "Expired " exactly when the count is negative and is "Expires today" exactly at 0; the full property is `GetNotified.LabelRoundTrip` |
| GetNotified.LabelRoundTrip | src/pages/GetNotified.tsx:173-178 | the label ("Expired n days ago" with n = -d >= 0, "Expires today", "d days left", "NaN days left") reads back to the day count it shows |
| GetNotified.LabelInjective | src/pages/GetNotified.tsx:173-178 | distinct day counts have distinct labels |
| GetNotified.DisplayDays | src/pages/GetNotified.tsx:46-52 | NaN exactly when the date does not parse; otherwise the ceiling bracket on expiry - now, the same formula as the scheduler's |
| GetNotified.DisplayDaysAgree | src/pages/GetNotified.tsx:46-52 | the page's days-until-expiry equals the scheduler's for the same date |
| GetNotified.PageProductsNeverDispatch | src/pages/GetNotified.tsx:5-11 | page products carry no contacts, so a scheduler pass over them dispatches nothing |
| GetNotified.OptionsVersusEvaluator | src/pages/GetNotified.tsx:136-141 | no offered option is `same_day`; the first five are known settings, `5_minutes_before` is Unknown |

## Left out

- Sending: `src/services/notificationService.ts` (EmailJS, the Twilio `fetch`, the browser `Notification`, `alert`) is external. It is the `send` parameter of `CheckExpiryAndNotify`. The real senders catch their own errors and return false (`src/services/notificationService.ts:45-48`, `78-81`), so the `Threw` outcome is reachable only with another notifier.
- Clock reads (`new Date()`, `Date.now()`) are parameters. Date-string parsing and time zones are the `DateParser` parameter.
- Scheduler.Pass: the model uses one instant for the whole pass. The source reads the clock per product (`src/hooks/useNotificationScheduler.ts:20`, `67`), after the previous product's awaited send (`:36`, `:39`) has resolved. A slow send near a day boundary can therefore change a later product's day count, and with it whether that product fires. `Scheduler.CheckExpiryAndNotify` has the same limitation.
- Lifecycle.CleanupSilences: a pass already in flight at teardown runs to completion. Cleanup (`src/hooks/useNotificationScheduler.ts:60`) only clears the interval. A pass suspended at an awaited send (`:36`, `:39`) resumes and still dispatches to the remaining products. The immediate check at `:55` is neither awaited nor cancelled. The model promises only that no new check starts.
- Expiry.CeilDays: exact integer ceiling instead of floating-point division. The two can differ only when the quotient exceeds about 10^8 days, where a double can no longer resolve 1/86 400 000 of a day.
- Decimal.FromNat: JavaScript writes numbers of 10^21 and above in exponent notation. The model always writes plain digits.
- React machinery (`useState`, `useCallback`, `useEffect`, `setInterval`) and async timing. Only the sequential semantics of one pass and the Stopped/Running timer are kept. An interval tick that overlaps a pass still awaiting a send is not modelled.
- The hook returns `checkExpiryAndNotify` so callers can run a manual pass. Such a pass is `CheckExpiryAndNotify` called at any time. `src/pages/GetNotified.tsx` never calls `useNotificationScheduler`.
- `console.log` / `console.error` output.
- Rendering, CSS classes and icons; the `via Email/SMS` text.
- The static pages and components (`Contact`, `About`, `Index`, `Hero`, `Navbar`, `Features`, `Stats`, `CallToAction`). They hold no decision logic. Contact's submit is a timed toast.
