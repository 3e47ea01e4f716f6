# Subscriptions — a verified model of the subscription domain layer

Subscriptions is an iOS app that tracks recurring payments. This project models its
domain layer in Dafny and proves properties of that model. The layer covers:

- the subscription record, with its billing cycles, categories and currencies;
- the monthly-equivalent cost, and the date one billing period later;
- the data manager's list of subscriptions: add, update, and both kinds of delete;
- the figures the dashboard derives from that list: the active filter, the monthly and
  yearly totals, per-category totals, the sorted category breakdown, the next payment
  and the upcoming-payments window;
- the preset-service catalogue and its case-insensitive search;
- the reminder policy of the notification manager: a reminder two days before each
  payment, keyed `subscription_<id>`.

Modules: one per Swift file, except that `DataManager.swift` is split in two (its
computed properties and its mutating class), plus two small helpers:

| module | file | models |
|---|---|---|
| `Models` | `Models.dfy` | `Subscriptions/Models.swift` (pure) |
| `Notifications` | `NotificationManager.dfy` | `Subscriptions/NotificationManager.swift` (a class over a ghost map of pending requests) |
| `Aggregates` | `Aggregates.dfy` | the computed properties of `Subscriptions/DataManager.swift` (pure) |
| `Store` | `DataManager.dfy` | the `DataManager` class: its `subscriptions` field and its mutations |
| `Presets` | `PresetServices.dfy` | `Subscriptions/PresetServices.swift` (pure) |
| `Seqs`, `Wrappers` | `Seqs.dfy`, `Wrappers.dfy` | `filter`, `sorted(by:)` and Swift's optionals |

Conventions used throughout the model:

- Dates are `int` instants. Costs are `real`, so 4.33 is exactly 433/100.
- A `UUID` is its `uuidString`. A fresh UUID is supplied by the caller.
- The current instant `now` is a parameter wherever the app reads `Date()`.
- `Calendar.current.date(byAdding:to:)` is a parameter `cal` of type
  `(DateComponents, Date) -> Option<Date>`. Lemmas that need it to move forward for a
  positive amount (and backward for a negative one) require `Advances(cal)`.
- The platform notification centre is the ghost field
  `NotificationManager.pending: map<string, Date>`. It maps each request identifier to
  the reminder instant: the payment date minus two days.

## Model

| member | source | states |
|---|---|---|
| Models.ParseBillingCycle | Subscriptions/Models.swift:80-85 | `BillingCycle(rawValue:)` yields the case with that raw value ("Weekly", "Monthly", "Quarterly", "Semi-annually", "Annually") and none for any other string |
| Models.ParseCategory | Subscriptions/Models.swift:153-166 | `SubscriptionCategory(rawValue:)` yields the case with that raw value and none for any other string |
| Models.ParseCurrency | Subscriptions/Models.swift:236-241 | `Currency(rawValue:)` yields the case with that code and none for any other string |
| Models.RawValuesInjective | Subscriptions/Models.swift:80-241 | within each of the three enumerations, no two cases share a raw value |
| Models.AllCategories | Subscriptions/Models.swift:153-166 | `allCases` has 12 categories in declaration order (the category at position i has ordinal i), no category twice |
| Models.AllCategoriesComplete | Subscriptions/Models.swift:153-166 | every category is in `allCases` |
| Models.SubscriptionCategory.IconName | Subscriptions/Models.swift:206-233 | every category has a non-empty icon name |
| Models.Currency.Symbol | Subscriptions/Models.swift:243-256 | every currency has a non-empty symbol |
| Models.CyclePeriod | Subscriptions/Models.swift:61-74 | each cycle adds a positive amount: 1 week, 1, 3 or 6 months, or 1 year |
| Models.Subscription.MonthlyCost | Subscriptions/Models.swift:45-58 | for a cycle of n whole months the monthly figure times n is the cost; a weekly cost is multiplied by 4.33; the figure is positive exactly when the cost is |
| Models.MonthlyCostLinear | Subscriptions/Models.swift:45-58 | the monthly figure is linear in the cost, for every cycle |
| Models.Subscription.NextPaymentDateAfter | Subscriptions/Models.swift:60-77 | the result is the calendar's date one period after the argument, or the argument itself when the calendar yields none; on a forward-moving calendar it is strictly later exactly when the calendar yields a date |
| Models.NextPaymentDateAfterIgnoresStoredDate | Subscriptions/Models.swift:60-77 | the result does not depend on the stored `nextPaymentDate` |
| Models.NewSubscription | Subscriptions/Models.swift:21-43 | both initialisers: the id is the one given (or the freshly generated one), every other field is the argument, and currency "USD", no description and active are the defaults |
| Models.DaysAfter | Subscriptions/Models.swift:306 | a whole number of days ahead never lies before `now` on a forward-moving calendar |
| Models.SampleData | Subscriptions/Models.swift:299-346 | five active, valid USD records with the given ids, each due on or after `now` |
| Notifications.RequestIdentifier | Subscriptions/NotificationManager.swift:88 | the identifier is "subscription_" followed by the id |
| Notifications.RequestIdentifierInjective | Subscriptions/NotificationManager.swift:102 | two subscriptions share an identifier exactly when they share an id |
| Notifications.Scheduled | Subscriptions/NotificationManager.swift:62-99 | scheduling adds the subscription's key, mapped to payment minus 2 days, exactly when notifications are enabled, the calendar yields that instant and it is after `now`; every other entry is kept |
| Notifications.ScheduledOnlyForFuturePayments | Subscriptions/NotificationManager.swift:65-71 | a reminder that is scheduled fires after `now` and before the payment |
| Notifications.Rescheduled | Subscriptions/NotificationManager.swift:107-115 | after rescheduling, the pending keys are exactly those of the active subscriptions that pass the scheduling guards, each mapped to its reminder instant |
| Notifications.RescheduledSnoc | Subscriptions/NotificationManager.swift:112-114 | rescheduling one more subscription schedules it after the others when it is active, and ignores it otherwise |
| Notifications.RescheduledDisabledIsEmpty | Subscriptions/NotificationManager.swift:63 | with notifications disabled nothing is pending after a reschedule |
| Notifications.NotificationManager.constructor | Subscriptions/NotificationManager.swift:14-23 | the manager starts with the loaded enabled flag and the platform's pending requests |
| Notifications.NotificationManager.ScheduleNotification | Subscriptions/NotificationManager.swift:62-99 | the pending map becomes `Scheduled` of the old one |
| Notifications.NotificationManager.CancelNotification | Subscriptions/NotificationManager.swift:101-105 | exactly that subscription's key is removed; every other entry is untouched |
| Notifications.NotificationManager.CancelAllNotifications | Subscriptions/NotificationManager.swift:117-120 | nothing is pending afterwards |
| Notifications.NotificationManager.RescheduleAllNotifications | Subscriptions/NotificationManager.swift:107-115 | the loop clears the map, then schedules the active subscriptions in order; the result is `Rescheduled` |
| Aggregates.ActiveSubscriptions | Subscriptions/DataManager.swift:141-143 | the result holds each active record as often as the list does and no inactive record, in list order |
| Aggregates.ActiveSubscriptionsSnoc | Subscriptions/DataManager.swift:141-143 | appending a record extends the active list by it exactly when it is active |
| Aggregates.SumMonthlyCost | Subscriptions/DataManager.swift:145-147 | a sum of positive costs is non-negative, and positive for a non-empty list |
| Aggregates.SumMonthlyCostAppend | Subscriptions/DataManager.swift:145-147 | the sum is additive over concatenation |
| Aggregates.TotalMonthlyCostAppend | Subscriptions/DataManager.swift:145-147 | appending a record adds its monthly cost to the total when it is active, and nothing when it is not |
| Aggregates.TotalMonthlyCost | Subscriptions/DataManager.swift:145-147 | with positive costs, the total is non-negative, and positive exactly when some record is active |
| Aggregates.SelectionSumPositive | Subscriptions/DataManager.swift:145-147 | the monthly costs of any selection from the list, with positive costs, sum to a positive amount exactly when some record is selected |
| Aggregates.SampleDataTotals | Subscriptions/DataManager.swift:145-147 | the demo list costs 57.97 a month and 695.64 a year |
| Aggregates.TotalYearlyCost | Subscriptions/DataManager.swift:167-169 | the yearly total is twelve times the sum of the 12 category totals; with positive costs it is non-negative, and positive exactly when some record is active |
| Aggregates.TotalYearlyCostAppend | Subscriptions/DataManager.swift:167-169 | the yearly total is twelve monthly totals: an active annual plan adds its cost, an active monthly plan adds 12 times its cost, an inactive one adds nothing |
| Aggregates.TotalCostForCategory | Subscriptions/DataManager.swift:155-159 | with positive costs, a category's total is non-negative, and positive exactly when some active record has that category |
| Aggregates.SubscriptionsForCategory | Subscriptions/DataManager.swift:161-163 | the result holds exactly the active records of the category, as often as the list does, in list order |
| Aggregates.SubscriptionsForCategorySnoc | Subscriptions/DataManager.swift:161-163 | appending a record extends a category's list by it exactly when it is active and in that category |
| Aggregates.TotalCostForCategoryAppend | Subscriptions/DataManager.swift:155-159 | appending a record adds its monthly cost to its own category's total when it is active, and nothing to any other total |
| Aggregates.CategoryTotalsAddUpToMonthlyTotal | Subscriptions/DataManager.swift:155-159 | the totals of all 12 categories add up to the monthly total: the breakdown partitions it |
| Aggregates.CategoryTotals | Subscriptions/DataManager.swift:172-176 | the `compactMap` step lists each category whose total is positive once, paired with that total, and nothing else |
| Aggregates.CategoryTotalsInOrder | Subscriptions/DataManager.swift:172-176 | `compactMap` keeps the order of `allCases` |
| Aggregates.SortByCostDescending | Subscriptions/DataManager.swift:177 | the entries are rearranged into non-increasing cost order; the sort is stable, so entries of equal cost that came in `allCases` order stay in that order |
| Seqs.SortByIsStable | Subscriptions/DataManager.swift:177 | `sorted(by:)` is stable: elements with equal keys leave in the order they came in |
| Aggregates.CategoriesWithCosts | Subscriptions/DataManager.swift:171-177 | the breakdown holds each entry (category, its positive total) exactly once and nothing else, in non-increasing cost order; categories of equal cost appear in `allCases` order |
| Aggregates.CategoriesWithCostsListsEachOnce | Subscriptions/DataManager.swift:171-177 | no category appears twice; each cost equals that category's total and is positive; a category appears exactly when its total is positive |
| Aggregates.EarliestPayment | Subscriptions/DataManager.swift:152 | `min(by:)` on the date yields none exactly for an empty list; otherwise it yields the first record whose date is not after any other |
| Aggregates.NextUpcomingPayment | Subscriptions/DataManager.swift:149-153 | the result is none exactly when no active record is due at or after `now`; otherwise it is such a record, due no later than any other, and no such record listed before it is due at the same instant |
| Aggregates.NextUpcomingPaymentIsFirst | Subscriptions/DataManager.swift:150-152 | `min(by:)` over the filtered active records picks the first-listed record among those due earliest, counted in the list of all records |
| Aggregates.EarliestDueInPlace | Subscriptions/DataManager.swift:151-152 | the record `min(by:)` picks from the due records sits in the active list after only records that are not due or are due later |
| Aggregates.FirstDueAmongActive | Subscriptions/DataManager.swift:150-151 | `activeSubscriptions` keeps list order, so a place among the active records gives a place among all records with the same property |
| Seqs.FilterFindsInOrder | Subscriptions/DataManager.swift:150-151 | `filter` keeps order: if every element in front of position `m` of the filtered list has a property, the element at `m` sits in the original list at a place in front of which every element that passes the filter has that property |
| Aggregates.UpcomingPayments | Subscriptions/DataManager.swift:179-184 | the result holds exactly the active records due from `now` to `nextDays` days later, both ends included and as often as the list does, in ascending date order |
| Aggregates.SortByDate | Subscriptions/DataManager.swift:183 | the records are rearranged into non-decreasing payment-date order |
| Store.FirstIndexOfId | Subscriptions/DataManager.swift:79 | `firstIndex(where:)` yields the first position holding the id, and none exactly when no record holds it |
| Store.Updated | Subscriptions/DataManager.swift:77-91 | the first record with the id is replaced in place; the length and every other position are unchanged; without a match the list is unchanged |
| Store.RemovedById | Subscriptions/DataManager.swift:106-113 | every record with the id is removed; the others keep their order and multiplicity; an absent id leaves the list unchanged |
| Store.KeptIndices | Subscriptions/DataManager.swift:93-104 | the surviving positions: below the length, not among the offsets, all of them, ascending |
| Store.RemovedAtOffsets | Subscriptions/DataManager.swift:93-104 | the survivors are the records at the surviving positions, in order |
| Store.RemovedAtOffsetsLength | Subscriptions/DataManager.swift:93-104 | with offsets in range, the list shrinks by the number of offsets |
| Store.AddKeepsIdsUnique | Subscriptions/DataManager.swift:69-75 | adding a record with a fresh id keeps the ids unique |
| Store.UpdateKeepsIdsUnique | Subscriptions/DataManager.swift:77-91 | an update changes no position's id, so the ids stay unique |
| Store.DeleteKeepsIdsUnique | Subscriptions/DataManager.swift:93-113 | both deletions keep the ids unique |
| Store.UpdateAfterAdd | Subscriptions/DataManager.swift:69-91 | editing a record just added with a fresh id changes that record and nothing else |
| Store.DeleteRemovesEveryMatch | Subscriptions/DataManager.swift:106-113 | after delete-by-id no record has the id, and every record with another id survives |
| Store.RescheduledIgnoresInactive | Subscriptions/DataManager.swift:117-119 | passing only the active records gives the same reminders as passing all of them |
| Store.DataManager.constructor | Subscriptions/DataManager.swift:18-24 | the store starts with the list that loading produced |
| Store.DataManager.AddSubscription | Subscriptions/DataManager.swift:69-75 | the record is appended; its reminder is requested whether or not it is active |
| Store.DataManager.UpdateSubscription | Subscriptions/DataManager.swift:77-91 | the list becomes `Updated`; with a match, the old reminder is cancelled and a new one requested only when the record is active; without a match, no reminder changes |
| Store.DataManager.DeleteSubscriptionsAt | Subscriptions/DataManager.swift:93-104 | the reminders of the records at the offsets are cancelled; the list becomes `RemovedAtOffsets` |
| Store.DataManager.DeleteSubscription | Subscriptions/DataManager.swift:106-113 | the record's reminder is cancelled; the list becomes `RemovedById` |
| Store.DataManager.RescheduleAllNotifications | Subscriptions/DataManager.swift:117-119 | the pending map becomes `Rescheduled` of the active records |
| Presets.AllServices | Subscriptions/PresetServices.swift:19-210 | the catalogue has 21 entries, in the order `allServices` lists them |
| Presets.CatalogueDefaults | Subscriptions/PresetServices.swift:19-210 | every entry is a monthly plan with a name, a positive price and the currency code "USD", so it converts to a valid record |
| Presets.CatalogueAdjacentNamesOrdered | Subscriptions/PresetServices.swift:20-210 | each name comes strictly before the next, ignoring case |
| Presets.CatalogueNamesSorted | Subscriptions/PresetServices.swift:20-210 | the names are in case-insensitive alphabetical order, and no two are equal, even ignoring case |
| Presets.LessIgnoringCaseTransitive | Subscriptions/PresetServices.swift:20 | the case-insensitive order is transitive |
| Presets.StartsWithIgnoringCase | Subscriptions/PresetServices.swift:216-217 | the text begins with the query exactly when its prefix of that length equals the query ignoring case |
| Presets.ContainsIgnoringCase | Subscriptions/PresetServices.swift:216-217 | the search over starting positions succeeds exactly when the query occurs somewhere in the text, ignoring case |
| Presets.SearchIn | Subscriptions/PresetServices.swift:212-219 | an empty query returns the catalogue unchanged; otherwise the result is an order-preserving subsequence holding exactly the entries whose name or description contains the query, each as often as the catalogue does |
| Presets.SearchServices | Subscriptions/PresetServices.swift:212-219 | the same, for `allServices` |
| Presets.ToSubscription | Subscriptions/PresetServices.swift:221-231 | the record copies name, cost, currency, cycle, category and description; its id is the fresh one; it is due on the given date and is active |

## Left out

- Persistence is not modelled: the `UserDefaults` and JSON encoding in
  `loadSubscriptions`, `saveSubscriptions`, `loadPreferredCurrency` and
  `savePreferredCurrency`, and the preferred-currency setting itself. The store's
  constructor takes the loaded list as given.
- `DispatchQueue.main.async` is not modelled: every mutation is one synchronous step.
- Calendar arithmetic is a parameter: month-end and daylight-saving rules are not
  re-derived. `Advances` is all the lemmas require of it.
- `Double` is modelled as `real`: rounding in the sums and divisions is not modelled.
- Currency and date formatting (`formattedCurrency`, `formatCurrency`,
  `NumberFormatter`), the localized display names and the notification content (title,
  body, sound, badge, category, calendar trigger) are presentation and are left out.
- Notification permission, the status check that updates `isNotificationEnabled`,
  test notifications and the debugging helpers are platform calls and are left out.
  The enabled flag is fixed while an operation runs.
- The `shared` singletons are not modelled: each `DataManager` is given its
  `NotificationManager`.
- Presets.LowerChar: case folding covers ASCII letters only. `localizedCaseInsensitiveContains`
  also folds other scripts and applies locale rules. The catalogue's CJK descriptions
  have no case, so only Latin names are affected.
- Presets.ContainsIgnoringCase: the empty query counts as contained in every text.
  Foundation's `localizedCaseInsensitiveContains("")` is false. `searchServices` returns
  before filtering on an empty query, so its result is the same either way.
- Aggregates.UpcomingPayments: the app reads `Date()` once for the window's end and
  again for each record the filter tests. The model uses one `now`. `sorted(by:)` is stable, so
  records due at the same instant keep their list order. The contract states the date
  order and the multiset but not the order among equal dates, because a list may hold
  equal records.
- The notification trigger is built from the year, month, day, hour and minute of the
  reminder instant, so it fires at the start of that minute. `pending` holds the
  instant itself, without the truncation.
- Store.DataManager.DeleteSubscriptionsAt requires every offset to be in range:
  `remove(atOffsets:)` traps on an offset past the end. The app's `indices.contains`
  guard on the cancel loop always holds under that requirement.
- The id-less initialiser's `UUID()` is an argument (`freshId`), because random
  generation has no model here. `NewSubscription` serves for both initialisers.
