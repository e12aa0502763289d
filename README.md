# OCPP central system: business-state model

This project models the business-state engine of an OCPP 1.6 central system: the server that electric-vehicle
chargers connect to. It keeps the tariffs and pricing plans, the transaction ledger, the billing records, the
authorization lists, the registry of connected chargers, the outbound commands, meter values, status
notifications, locations and the HTTP authentication guards. Each part is one Dafny module, each in its own file:

| module | file | models |
|---|---|---|
| `Common` | common.dfy | Option and Result wrappers; JavaScript truthiness (`x || fallback`, a `0` counts as missing) |
| `Strings` | strings.dfy | JavaScript string `<=` (lexicographic), the zero-padded `HH:mm` rendering, `split`, `join`, `trim`, ASCII case folding |
| `Collections` | collections.dfy | the query shapes used on collections: `find`, `findOne`, `countDocuments`, `.sort({k: -1})`, `.limit(n)` |
| `OcppTypes` | ocpp_types.dfy | the enumerations of the schemas (transaction status, stop reason, connector status, measurand, context, unit) |
| `TimeOfDay` | time_of_day.dfy | the first-match time-of-day price lookup shared by tariffs and pricing plans |
| `TariffService` | tariff_service.dfy | tariff conflict detection, tariff selection and the tariff collection |
| `PricingService` | pricing_service.dfy | pricing-plan selection and the pricing collection |
| `Transactions` | transactions.dfy | the transaction ledger: id allocation, creation, the stop rule |
| `Consumption` | consumption.dfy | billing: the pre-save hook, consumption creation, listing and statistics |
| `Authorization` | authorization.dfy | the authorized and blocked tag sets, idTag and reservation records |
| `Payments` | payments.dfy | payments and the payment gate used for authorization |
| `SessionRegistry` | session_registry.dfy | the map of connected chargers and its handlers |
| `CentralSystem` | central_system.dfy | outbound command validation, payload shaping and result normalisation |
| `CentralRoutes` | central_routes.dfy | the HTTP routes over those commands and their status codes |
| `MeterValues` | meter_values.dfy | storing meter values; energy and power derivation |
| `StatusNotifications` | status_notifications.dfy | the status-notification log and its queries |
| `Locations` | locations.dfy | locations and the charge points assigned to them |
| `AuthMiddleware` | auth_middleware.dfy | bearer-token authentication and role authorization |

The model follows the form of the code it models:
- Collections that the services write (tariffs, plans, transactions, consumption records, payments, meter values,
  status notifications, locations) are `seq` fields of classes. Ids come from a counter field.
- The in-memory structures that the source mutates are also classes with `modifies` clauses. These are the two
  tag sets, the `connectedClients` map, the consumption document under the pre-save hook, and the request object
  that the middleware decorates.
- Loops in the source are `while` loops in methods, proved equal to a specification function. Examples:
  `_hasOverlappingTimeZones`, `_assertNoTariffConflict`, `generateTransactionId`, the sample flattening, the energy
  and power scans, and the reference cleanup in `deleteLocation`.
- Pure decisions and queries are functions, and lemmas state their properties.

Parameters replace what the code reads from the outside world:
- instants (milliseconds since the epoch, and a `Moment` that also carries the local weekday, hour and minute);
- `Math.random` draws, and whether a database call throws;
- `parseFloat` (`string -> Reading`);
- the token verifier and the user lookup;
- the reply or error of a remote call.

## Model

| member | source | states |
|---|---|---|
| Common.OrReal | service/management/consumptionService.js:72-73 | `x \|\| fallback` on a number: x when it is present and non-zero, the fallback otherwise |
| Common.OrString | middleware/authMiddleware.js:37 | `s \|\| fallback` on a string: s unless it is empty |
| Strings.LexLe | model/management/Tariff.js:78 | JavaScript `<=` on strings: a prefix orders before every extension of it, and a longer string never orders before its own prefix |
| Strings.LexLeFirstDifference | model/management/Tariff.js:78 | the first position where two strings differ decides their order, by the characters there |
| Strings.LexLeReflexive | model/management/Tariff.js:78 | the string order used for `HH:mm` comparison is reflexive |
| Strings.LexLeTotal | model/management/Tariff.js:78 | any two strings are comparable |
| Strings.LexLeAntisymmetric | model/management/Tariff.js:78 | strings ordered both ways are equal |
| Strings.LexLeTransitive | model/management/Tariff.js:78 | the string order is transitive |
| Strings.NotLessIsReversedLe | model/management/Tariff.js:78 | JavaScript's `a >= b` on strings (`!(a < b)`) is `b <= a` |
| Strings.LexMax | service/management/tariffService.js:16-19 | the later of two strings is at least both and is one of them |
| Strings.Pad2 | model/management/Tariff.js:63-66 | `padStart(2, "0")` gives two digits: tens then units |
| Strings.TimeString | model/management/Tariff.js:63-67 | the rendered time is five characters with ':' in the middle |
| Strings.DigitOrder | model/management/Tariff.js:63-66 | digit characters order like their values |
| Strings.Pad2Order | model/management/Tariff.js:63-66 | two-digit renderings order like the numbers they render |
| Strings.TimeStringOrder | model/management/Tariff.js:63-67 | comparing two rendered `HH:mm` strings as strings agrees with comparing minutes since midnight |
| Strings.Split | routes/centralSystem.js:77-80 | `split` returns at least one piece, and no piece holds the separator |
| Strings.SplitLastPiece | routes/centralSystem.js:77-80 | a trailing piece without the separator is the last part of the split |
| Strings.SplitNoSeparator | routes/centralSystem.js:77-80 | a string without the separator splits into itself alone |
| Strings.SplitJoin | routes/centralSystem.js:77-80 | splitting a joined list gives the list back when no part holds the separator |
| Strings.TrimStart | routes/centralSystem.js:79 | the result does not start with white space (ECMAScript WhiteSpace and LineTerminator), keeps the last character, and draws its characters from the input; a string without leading white space is unchanged |
| Strings.TrimEnd | routes/centralSystem.js:79 | the result does not end with white space, keeps the first character, and draws its characters from the input; a string without trailing white space is unchanged |
| Strings.Trim | routes/centralSystem.js:79 | no white space at either end remains, the characters come from the input, and an already trimmed string is unchanged |
| Strings.TrimStartIsSuffix | routes/centralSystem.js:79 | `trimStart` keeps a suffix of the input and cuts only white space |
| Strings.TrimEndIsPrefix | routes/centralSystem.js:79 | `trimEnd` keeps a prefix of the input and cuts only white space |
| Strings.TrimIsSlice | routes/centralSystem.js:79 | `trim` keeps one contiguous slice of the input, with only white space cut before and after it |
| Strings.TrimBothEnds | routes/centralSystem.js:79 | cutting leading and then trailing white space leaves one slice of the original with only white space outside it |
| Strings.LowerString | routes/centralSystem.js:17 | case folding keeps the length and folds every character |
| Collections.Filter | service/ocpp/statusNotificationService.js:44-53 | `find`: exactly the matching elements, and no more of each than the store holds |
| Collections.FilterAppend | service/ocpp/statusNotificationService.js:44-53 | `find` keeps store order: it distributes over concatenation |
| Collections.FirstIndex | service/management/transactionService.js:115-121 | `findOne` without sort: the first matching index, or the length when nothing matches |
| Collections.Count | service/management/paymentService.js:161-168 | `countDocuments`: the number of matches, positive exactly when one exists |
| Collections.CountUpdate | service/management/paymentService.js:161-168 | replacing one element changes the count only by that element's contribution |
| Collections.CountAppend | service/management/paymentService.js:161-168 | appending an element adds its contribution to the count |
| Collections.InsertDesc | service/ocpp/statusNotificationService.js:56 | one insertion step of the sort adds one element |
| Collections.InsertDescPermutes | service/ocpp/statusNotificationService.js:56 | inserting adds exactly the inserted element and loses none |
| Collections.InsertDescBounded | service/ocpp/statusNotificationService.js:56 | inserting a key within a bound keeps every key within that bound |
| Collections.InsertDescSorted | service/ocpp/statusNotificationService.js:56 | inserting into a descending list keeps it descending |
| Collections.SortDesc | service/ocpp/statusNotificationService.js:56 | `.sort({k: -1})` gives a descending permutation of the input |
| Collections.SelectSorted | service/management/pricingService.js:36-37 | `find(q).sort({k: -1})`: a descending permutation of exactly the matches |
| Collections.NewestMatch | service/management/pricingService.js:62 | `findOne(q).sort({k: -1})`: a match with the greatest key, none exactly when nothing matches |
| Collections.NewestMatches | service/ocpp/statusNotificationService.js:54-60 | `find(q).sort({k: -1}).limit(n)`: only matches, descending, at most n; every match when fewer than n match; with n = 0 a permutation of all matches; every match left out is no newer than every match returned |
| Collections.NewestMatchHeadsListing | service/ocpp/statusNotificationService.js:54-79 | the single newest match exists exactly when the unlimited listing is non-empty, and has the key of its head |
| Collections.Limit | service/ocpp/statusNotificationService.js:58-60 | `.limit(n)`: the first n elements, everything when n is 0 or large enough |
| Collections.LimitOfDescending | service/ocpp/statusNotificationService.js:54-60 | cutting a descending list to n keeps its first n elements, still descending, and every element cut is no newer than every element kept |
| TimeOfDay.FirstMatch | model/management/Tariff.js:71-81 | the index of the first rule in stored order whose day and window match, and no earlier rule matches |
| TimeOfDay.RuleMatches | model/management/Tariff.js:71-81 | a rule matches exactly on a matching day when start <= clock <= end as strings (the `>=` test read as reversed `<=`) |
| TimeOfDay.PriceForDateTime | model/management/Tariff.js:62-86 | the price is the base price or the price of one of the rules |
| TimeOfDay.FirstMatchingRuleWins | model/management/Pricing.js:57-69 | when rule k is the first that matches, its pricePerKwh is returned |
| TimeOfDay.NoMatchGivesBasePrice | model/management/Tariff.js:85 | with no matching rule, or no rules at all, basePrice is returned |
| TimeOfDay.InvertedWindowNeverMatches | model/management/Tariff.js:78 | a window whose start is after its end never matches |
| TimeOfDay.NullDayNeverMatches | model/management/Tariff.js:75-76 | a rule whose dayOfWeek is stored as null matches on no day (the test is `=== undefined`) |
| TimeOfDay.WindowIsMinuteRange | model/management/Pricing.js:51-54 | for `HH:mm` bounds, matching is the inclusive range of minutes since midnight, on a matching day |
| TariffService.TimeRangesOverlapSymmetric | service/management/tariffService.js:16-19 | the time-window overlap test is symmetric |
| TariffService.TimeRangesOverlap | service/management/tariffService.js:16-19 | a window with a missing bound overlaps nothing; overlapping windows satisfy start1 <= end2 and start2 <= end1; two well-formed windows with the same start overlap |
| TariffService.DaysOverlap | service/management/tariffService.js:28-32 | an unset or null day overlaps every day; two set days overlap exactly when they are equal |
| TariffService.Conflicts | service/management/tariffService.js:40-58 | no conflict when either list is empty; any pair (new, existing) that overlaps on day and time is a conflict |
| TariffService.DaysOverlapSymmetric | service/management/tariffService.js:28-32 | the day overlap test is symmetric |
| TariffService.OverlapIffCommonTime | service/management/tariffService.js:16-19 | two well-formed windows overlap exactly when some time lies in both |
| TariffService.ConflictsSymmetric | service/management/tariffService.js:40-58 | the list conflict relation does not depend on which list is the new one |
| TariffService.SharedInstantMeansOverlap | service/management/tariffService.js:16-32 | two rules that would both price the same instant are reported as overlapping |
| TariffService.HasOverlappingTimeZones | service/management/tariffService.js:40-58 | the nested scan with early return answers exactly whether some pair overlaps on day and time; an empty list never conflicts |
| TariffService.FromDraft | model/management/Tariff.js:18-40 | a new tariff gets the schema defaults: base price 0, currency "USD", active, validFrom now, fee and minimum charge 0 |
| TariffService.ValidDraft | model/management/Tariff.js:5-29 | a draft without name, company, charge point or connector, with an empty currency, or with a window entry that fails its validators is refused |
| TariffService.ValidPatch | service/management/tariffService.js:281-284 | an update that sets name, chargePointId or currency to "" is refused; one without windows and without such a field, such as the deactivation patch, is accepted |
| TariffService.Patched | service/management/tariffService.js:276-280 | each patchable field (name, chargePointId, connectorId, basePrice, currency, windows, fee, minimum charge, isActive, validity) takes the patch value when given and keeps the stored value otherwise; id, companyId and createdAt are kept; updatedAt is now |
| TariffService.AppendKeepsNoActiveConflicts | service/management/tariffService.js:69-98 | a tariff admitted by the conflict check keeps active tariffs of a connector free of overlaps |
| TariffService.ReplaceKeepsNoActiveConflicts | service/management/tariffService.js:258-284 | replacing a tariff by one with the same id that the check admits in its own (new) scope, excluding that id, keeps the no-overlap invariant |
| TariffService.DeactivateKeepsNoActiveConflicts | service/management/tariffService.js:306-308 | turning a tariff inactive never creates a conflict among active tariffs |
| TariffService.DeactivatingInactiveTariffConflicts | service/management/tariffService.js:258-284 | an inactive tariff that overlaps an active one fails its own deactivation's conflict check |
| TariffService.UpdateMovesTariffIntoConflict | service/management/tariffService.js:258-289 | as written: an update that moves a tariff to another charge point passes the check in the old scope and breaks the no-overlap invariant |
| TariffService.ConnectorUpdateWritesUncheckedTariff | service/management/tariffService.js:128-166 | as written: the check passes for the newest tariff in scope, the first in store order is written, and the result has overlapping active tariffs |
| TariffService.Newest | service/management/tariffService.js:195-198 | the first tariff in `validFrom` then `createdAt` descending order; none only for an empty list |
| TariffService.TariffForConnector | service/management/tariffService.js:179-199 | an applicable tariff (active, this connector, valid at t) that no other applicable tariff sorts before; none exactly when none applies |
| TariffService.PriceForConnector | service/management/tariffService.js:317-340 | null exactly without an applicable tariff; otherwise that tariff's price at the instant, fee and minimum defaulting to 0 |
| TariffService.QuotedPriceComesFromTariff | service/management/tariffService.js:317-340 | the quoted price is the tariff's base price or one of its rule prices, and the currency is not empty |
| TariffService.ScopeConflict | service/management/tariffService.js:69-98 | no conflict without candidate windows or without an active tariff in scope; a conflict names an active tariff in scope (other than the excluded id) that has windows |
| TariffService.TariffStore.constructor | service/management/tariffService.js:3-6 | the collection starts empty |
| TariffService.TariffStore.AssertNoTariffConflict | service/management/tariffService.js:69-98 | the loop answers exactly whether an active tariff in the same scope (other than the excluded id) conflicts |
| TariffService.TariffStore.Create | service/management/tariffService.js:105-126 | the conflict check runs before validation; only an admitted, valid tariff is appended; a rejected create leaves the store unchanged |
| TariffService.TariffStore.Update | service/management/tariffService.js:258-289 | an unknown id is an error; the merged windows are checked in the stored tariff's scope excluding its own id, then the patch is validated; otherwise the tariff is patched in place; the no-overlap invariant is kept when the update leaves the scope unchanged |
| TariffService.TariffStore.Deactivate | service/management/tariffService.js:306-308 | as intended: an existing tariff becomes inactive without a conflict check, and the no-overlap invariant is kept |
| TariffService.TariffStore.UpdateConnectorTariff | service/management/tariffService.js:128-166 | as written: no tariff in scope is an error; the newest tariff in scope is checked with the merged windows; the first tariff in store order is patched |
| TariffService.TariffStore.UpdateInNewScope | service/management/tariffService.js:258-289 | corrected update: the patched tariff is checked in its new scope, excluding its own id; otherwise as Update, and the no-overlap invariant is always kept |
| TariffService.TariffStore.UpdateCheckedConnectorTariff | service/management/tariffService.js:128-166 | corrected connector update: the newest tariff in scope is checked in the patched tariff's scope and that same tariff is patched; the no-overlap invariant is kept |
| TariffService.TariffStore.Delete | service/management/tariffService.js:291-299 | the tariff with that id is removed and returned; an unknown id is an error |
| PricingService.ActivePricingForChargePoint | service/management/pricingService.js:42-64 | an active plan valid at t that covers the charge point (an empty list covers all), with the latest createdAt; none exactly when no plan qualifies |
| PricingService.PricePerKwh | service/management/pricingService.js:69-77 | an error exactly when no plan applies; otherwise the selected plan's time-of-day price at the instant |
| PricingService.AllPricing | service/management/pricingService.js:22-37 | exactly the plans the filters admit, newest first |
| PricingService.SelectedPlanIsListed | service/management/pricingService.js:22-62 | the plan selected for a charge point appears in its listing of active plans |
| PricingService.ActivePricingForUser | service/management/pricingService.js:114-124 | an active plan valid now that carries the userId, with the latest createdAt among such plans; none exactly when no plan qualifies |
| PricingService.UserHasActivePricing | service/management/pricingService.js:126-129 | true exactly when such a plan exists |
| PricingService.NoUserPricingInStore | model/management/Pricing.js:3-45 | plans saved through the schema never carry a userId, so no user has active pricing |
| PricingService.PlanFromDraft | model/management/Pricing.js:8-32 | a new plan gets the schema defaults and has no userId |
| PricingService.ValidPlanDraft | model/management/Pricing.js:5-19 | a plan without a name, with an empty currency, or with a window missing its start or end is refused; without windows only the name and currency decide |
| PricingService.PatchedPlan | service/management/pricingService.js:82-84 | each patchable field (name, basePrice, currency, windows, fee, minimum charge, isActive, charge points, validity) takes the patch value when given and is kept otherwise; id, creation time and userId are kept |
| PricingService.PricingStore.constructor | model/management/Pricing.js:74 | the collection starts empty |
| PricingService.PricingStore.Create | service/management/pricingService.js:6-10 | a valid plan is appended with the next id; an invalid one leaves the store unchanged |
| PricingService.PricingStore.Update | service/management/pricingService.js:82-84 | null for an unknown id; otherwise the plan is patched in place |
| PricingService.PricingStore.SetActive | service/management/pricingService.js:96-112 | activate and deactivate change only isActive (and updatedAt) |
| PricingService.PricingStore.Delete | service/management/pricingService.js:89-91 | removes and returns the plan, or null for an unknown id |
| PricingService.InactivePlanNeverSelected | service/management/pricingService.js:42-62 | a deactivated plan is never selected for any charge point or instant |
| Transactions.MaxId | service/management/transactionService.js:21-29 | the highest transactionId of a non-empty store |
| Transactions.Proposal | service/management/transactionService.js:21-43 | with a non-zero highest id, one more than some stored id and above all of them; otherwise floor(now / 1000) |
| Transactions.ValidTransactionDraft | model/ocpp/Transaction.js:6-11 | a draft without chargePointId, connectorId, idTag, meterStart or timestamp is refused |
| Transactions.ProposalIsFresh | service/management/transactionService.js:21-43 | once the clock is past the first second, the proposed id is never taken |
| Transactions.StatusAfterStop | service/management/transactionService.js:127-134 | Stopped exactly for EmergencyStop or HardReset, otherwise Completed |
| Transactions.AfterStop | service/management/transactionService.js:124-142 | stoppedAt is stamped, the status follows the stop rule, meterStop and stopReason are written only when given, nothing else changes |
| Transactions.StopIsIdempotent | service/management/transactionService.js:114-151 | stopping again with the same data at the same instant changes nothing |
| Transactions.ActiveByChargePoint | service/management/transactionService.js:101-106 | exactly the charge point's Active transactions |
| Transactions.StoppedLeavesActiveList | service/management/transactionService.js:101-151 | a stopped transaction is no longer listed as active |
| Transactions.TransactionLedger.constructor | service/management/transactionService.js:3-6 | the ledger starts empty |
| Transactions.TransactionLedger.GenerateTransactionId | service/management/transactionService.js:14-65 | at most 10 attempts; a successful attempt returns the fresh max+1 proposal; otherwise the time-plus-random fallback |
| Transactions.TransactionLedger.CreateTransaction | service/management/transactionService.js:67-81 | an invalid draft is refused; a given non-zero id is refused exactly when taken and accepted otherwise; an id is generated only when none is given; an accepted transaction holds the draft's fields, no stop data, status Active by default, and is appended |
| Transactions.TransactionLedger.StopTransaction | service/management/transactionService.js:114-151 | an unknown id is an error; otherwise exactly that record becomes AfterStop of itself |
| Authorization.SetAdd | service/ocpp/authorize.js:64 | `Set.add`: the member is present afterwards, nothing else is added, and no duplicates appear |
| Authorization.SetDelete | service/ocpp/authorize.js:65 | `Set.delete`: the member is absent afterwards and the others keep their order: the result is the input filtered by `y != x`, without duplicates when the input had none |
| Authorization.InitialTagsValid | service/ocpp/authorize.js:9-19 | the initial authorized and blocked sets are disjoint |
| Authorization.Authorize | service/ocpp/authorize.js:26-56 | Accepted exactly for a non-empty authorized tag that is not blocked, with expiry one year later; Blocked exactly for a blocked tag; Invalid otherwise |
| Authorization.AddAuthorized | service/ocpp/authorize.js:63-66 | the tag goes into the authorized set and out of the blocked set; disjointness is kept |
| Authorization.RemoveAuthorized | service/ocpp/authorize.js:72-74 | the tag leaves the authorized set only; disjointness is kept |
| Authorization.Block | service/ocpp/authorize.js:80-83 | the tag goes into the blocked set and out of the authorized set; disjointness is kept |
| Authorization.AddedTagIsAccepted | service/ocpp/authorize.js:26-66 | after adding a tag it is Accepted |
| Authorization.BlockedTagIsBlocked | service/ocpp/authorize.js:26-83 | after blocking a tag it is Blocked |
| Authorization.RemovedTagIsInvalid | service/ocpp/authorize.js:26-74 | after removing a tag that was not blocked it is Invalid |
| Authorization.MutatorsAffectOnlyTheirTag | service/ocpp/authorize.js:63-83 | the answer for every other tag is unchanged by each mutator |
| Authorization.TagRegistry.constructor | service/ocpp/authorize.js:9-19 | the sets start as the module's initial lists |
| Authorization.TagRegistry.AddAuthorizedTag | service/ocpp/authorize.js:63-66 | the sets become AddAuthorized of the old sets |
| Authorization.TagRegistry.RemoveAuthorizedTag | service/ocpp/authorize.js:72-74 | the sets become RemoveAuthorized of the old sets |
| Authorization.TagRegistry.BlockTag | service/ocpp/authorize.js:80-83 | the sets become Block of the old sets |
| Authorization.TagRegistry.AuthorizedTags | service/ocpp/authorize.js:89-91 | `Array.from` of the authorized set: exactly its members in insertion order, without duplicates |
| Authorization.TagRegistry.BlockedTags | service/ocpp/authorize.js:97-99 | `Array.from` of the blocked set: exactly its members in insertion order, without duplicates |
| Authorization.IdTagExpired | model/ocpp/IdTag.js:34-36 | never expired without an expiry date; otherwise expired exactly when now is after it |
| Authorization.InsertIdTag | model/ocpp/IdTag.js:5-22 | an empty tag is invalid and a duplicate tag is refused; otherwise exactly one record is appended, holding the tag, parentIdTag, expiryDate and userId, with status defaulting to Accepted and isActive to true |
| Authorization.InsertIdTagKeepsTagsUnique | model/ocpp/IdTag.js:5 | the unique index keeps every tag once |
| Authorization.ReservationExpiredAt | model/ocpp/Reservation.js:37-39 | expired exactly when now is after the expiry date |
| Authorization.CoversConnector | model/ocpp/Reservation.js:7 | a reservation without a connector covers any connector |
| Authorization.InsertReservation | model/ocpp/Reservation.js:5-22 | accepted exactly with the required fields present and a fresh reservationId; the one appended record holds the given reservationId, chargePointId, connectorId, idTag and expiryDate, status defaulting to Active and no transactionId |
| Consumption.Hook | model/management/Consumption.js:49-68 | each derived field is recomputed only when its inputs are truthy or present, and is kept otherwise; the inputs are untouched |
| Consumption.HookFixpointIffSettled | model/management/Consumption.js:49-68 | saving leaves a document unchanged exactly when its derived fields already agree with their inputs |
| Consumption.HookIsIdempotent | model/management/Consumption.js:49-68 | the hook's output is settled, so a second save recomputes nothing |
| Consumption.ConsumptionDoc.constructor | model/management/Consumption.js:3-47 | the document holds the given fields |
| Consumption.ConsumptionDoc.PreSave | model/management/Consumption.js:49-68 | the in-place assignments leave the fields equal to Hook of the old fields |
| Consumption.WithDefaults | model/management/Consumption.js:23-27 | connectionFee defaults to 0 and currency to "USD"; the undeclared tariffId is dropped; nothing else changes |
| Consumption.Seconds | service/management/consumptionService.js:114-117 | the duration in seconds: times 1000 it is the difference of the instants; never negative for ordered instants |
| Consumption.Kwh | service/management/consumptionService.js:107-108 | the energy in kWh: times 1000 it is meterStop - meterStart in Wh; never negative for a rising meter |
| Consumption.ValidConsumption | model/management/Consumption.js:5-31 | a record missing any required field (transaction, charge point, connector, idTag, meter readings, energy, start and stop times, timestamp) is refused |
| Consumption.TariffForTransaction | service/management/consumptionService.js:15-37 | the connector tariff at the instant, tried under the transaction's chargePointId and then under the storage id |
| Consumption.EnergyCost | service/management/consumptionService.js:111 | energy times price exactly when the price is truthy, otherwise null |
| Consumption.TotalCost | service/management/consumptionService.js:112 | energy cost plus fee exactly when the energy cost is truthy, otherwise null |
| Consumption.ServiceCost | service/management/consumptionService.js:107-118 | energy = (meterStop - meterStart) / 1000; the costs as above; duration in seconds only with both instants |
| Consumption.ServiceCostIsHookFixpoint | service/management/consumptionService.js:107-118 | what the service computes is exactly what the pre-save hook would compute |
| Consumption.AllConsumption | service/management/consumptionService.js:233-262 | the selected records, newest first, at most `limit || 100`, all of them when fewer; as a multiset the result is part of the matches, so no record is repeated; every record left out is no newer than those returned |
| Consumption.AllConsumptionLength | service/management/consumptionService.js:233-262 | the listing holds exactly the smaller of the number of selected records and `limit || 100` |
| Consumption.CountPresent | service/management/consumptionService.js:303-316 | never more than the number of values |
| Consumption.CountPresentCountsNonNull | service/management/consumptionService.js:303-316 | `$avg` counts the non-null values: the count is the number of present values |
| Consumption.CountPresentAllIffNoNull | service/management/consumptionService.js:303-316 | every value is counted exactly when none is null |
| Consumption.AvgPresent | service/management/consumptionService.js:303-316 | `$avg`: null exactly without values; otherwise the mean of the non-null values |
| Consumption.SumBounds | service/management/consumptionService.js:303-316 | a sum of values between lo and hi lies between n·lo and n·hi |
| Consumption.AverageWithinBounds | service/management/consumptionService.js:303-316 | an average of present values lies between their bounds |
| Consumption.Matched | service/management/consumptionService.js:282-301 | the statistics match stage keeps exactly the selected records |
| Consumption.ConsumptionStatistics | service/management/consumptionService.js:282-328 | the count of matched records, their sums and averages; all zero when nothing matches |
| Consumption.OrInt | service/management/consumptionService.js:159-167 | `x \|\| fallback` on a number |
| Consumption.ConsumptionStore.constructor | model/management/Consumption.js:70 | the collection starts empty |
| Consumption.ConsumptionStore.Save | model/management/Consumption.js:3-68 | defaults, then validation, then the hook; a valid record is appended |
| Consumption.ConsumptionStore.LookUpQuote | service/management/consumptionService.js:55-96 | the quote the lookup settles on: the tariff price first, the plan price only without a tariff, nothing after a fault (fee 0, "USD") |
| Consumption.Quoted | service/management/consumptionService.js:55-96 | a store failure leaves the defaults; a tariff quote names no plan and carries a price; a price comes from a tariff or, with a start time, from a plan; without a price the fee is 0 and the currency USD |
| Consumption.QuotedPriceSource | service/management/consumptionService.js:55-96 | a price exactly without a fault and with a tariff, or with a plan and a start time; a tariff price carries its tariffId and no pricingId; otherwise it is the plan's time-of-day price at the start, with the plan id |
| Consumption.ConsumptionStore.CreateFromTransaction | service/management/consumptionService.js:43-146 | errors in order: unknown transaction, falsy meterStop, existing record; then a validation error exactly when a required transaction field is missing; otherwise one record with the next id holding the transaction's fields, the quoted pricing and currency, and ServiceCost of them |
| Consumption.ConsumptionStore.CreateManual | service/management/consumptionService.js:151-210 | accepted exactly when the filled data with defaults is valid; then the stored record is that data with the hook applied, under the next id |
| Consumption.SourceTransaction | service/management/consumptionService.js:153-157 | the first transaction with the given truthy id; none exactly when the id is falsy or unknown |
| Consumption.Filled | service/management/consumptionService.js:153-201 | without a source transaction nothing changes; with one, each falsy field is filled from it, and the price (with fee, currency and tariff or plan) is looked up only when no truthy price is given and no fault occurs; id and timestamp are kept |
| Payments.Overwrite | service/management/paymentService.js:110-122 | every writable field (amount, currency, status, method, user, company, transaction, charge point, idTag, paidAt, external id) takes the update's value when defined and keeps the stored value otherwise; id and timestamps are kept |
| Payments.OverwriteIsIdempotent | service/management/paymentService.js:110-122 | writing the same fields twice changes nothing the second time |
| Payments.CompletionFields | service/management/paymentService.js:130-134 | status Completed unless extra names one; paidAt now unless extra supplies a truthy one (a paidAt of 0 is falsy and replaced by now); the other extra fields pass through |
| Payments.PendingFor | service/management/paymentService.js:144-150 | only pending payments count; among the idTag's own payments exactly the pending ones; without a userId exactly the idTag's pending payments |
| Payments.RecentFailureFor | service/management/paymentService.js:160-165 | only failed payments created within the last thirty days count; without a userId exactly the idTag's failed payments of that window |
| Payments.PaymentGate | service/management/paymentService.js:143-175 | blocked for an outstanding payment exactly when a Pending one concerns the tag or user; otherwise blocked exactly with 5 or more recent failures |
| Payments.GateBlockPersists | service/management/paymentService.js:143-175 | recording another payment never lifts a block at the same instant |
| Payments.PendingPaymentBlocks | service/management/paymentService.js:151-158 | a pending payment for the tag blocks it, whatever else is stored |
| Payments.AllPayments | service/management/paymentService.js:40-68 | exactly the payments every given filter admits, newest first |
| Payments.PaymentStore.constructor | service/management/paymentService.js:3-6 | the collection starts empty |
| Payments.PaymentStore.CreatePayment | service/management/paymentService.js:13-29 | missing amount, negative amount and empty currency are refused in that order; 0 is allowed; otherwise the payment with the given fields, defaults USD, Pending and Other, the next id and both timestamps now is appended |
| Payments.PaymentStore.UpdatePayment | service/management/paymentService.js:110-122 | the update validators run before the lookup: an empty currency is refused first; then an unknown id is an error; otherwise the fields are written in place and updatedAt is stamped |
| Payments.PaymentStore.CompletePayment | service/management/paymentService.js:130-134 | an empty currency is refused first, then an unknown id is an error; otherwise the stored payment in place gets status Completed (or the given one), paidAt now (or the given truthy one), the other given fields and updatedAt now |
| SessionRegistry.PathSegments | service/ocpp/ocppHandler.js:21-23 | the non-empty, slash-free segments of the path |
| SessionRegistry.ExtractIdentity | service/ocpp/ocppHandler.js:17-30 | the handshake's chargePointId, else the last path segment, else "unknown" |
| SessionRegistry.LastPathSegment | service/ocpp/ocppHandler.js:21-23 | the last non-empty segment of `<path>/<identity>` is the identity |
| SessionRegistry.IdentityFromPath | service/ocpp/ocppHandler.js:17-30 | a charger connecting to `<path>/<identity>` is known by that identity |
| SessionRegistry.RegistryKey | service/ocpp/ocppHandler.js:52 | the identity, or "unknown" when it is empty |
| SessionRegistry.Registered | service/ocpp/ocppHandler.js:51-62 | the entry is replaced: connected, no heartbeat, no transactions; other entries are kept |
| SessionRegistry.ClosedByIdentity | service/ocpp/ocppHandler.js:85-96 | as written: the entry under the identity is marked disconnected, whichever connection it holds |
| SessionRegistry.ClosedByConnection | service/ocpp/ocppHandler.js:85-96 | as intended: only the closing connection's own entry is marked; entries are never removed |
| SessionRegistry.StaleCloseDisconnectsLiveConnection | service/ocpp/ocppHandler.js:85-96 | a reconnect followed by the old socket's close shows the live connection as disconnected |
| SessionRegistry.OnlyTheClosingConnectionIsMarked | service/ocpp/ocppHandler.js:85-96 | under the intended close, a later connection's entry is never marked |
| SessionRegistry.HeartbeatAt | service/ocpp/ocppHandler.js:114-125 | lastHeartbeat is stamped only when the entry exists |
| SessionRegistry.Started | service/ocpp/ocppHandler.js:135-163 | one record is appended to the entry's list |
| SessionRegistry.Stopped | service/ocpp/ocppHandler.js:165-186 | only the first record with the id is updated; an unknown id changes nothing |
| SessionRegistry.StartAddsOpenTransaction | service/ocpp/ocppHandler.js:135-163 | starting adds exactly one open transaction |
| SessionRegistry.StopClosesOneTransaction | service/ocpp/ocppHandler.js:165-186 | stopping an open transaction closes exactly one; the record count is unchanged |
| SessionRegistry.BootNotification | service/ocpp/ocppHandler.js:103-112 | always Accepted with interval 300 and the current time |
| SessionRegistry.Summary | service/ocpp/ocppHandler.js:258-267 | transactionCount is the number of records and activeTransactions those without stoppedAt, so active <= total |
| SessionRegistry.Summaries | service/ocpp/ocppHandler.js:258-267 | one summary per key, in order |
| SessionRegistry.Registry.constructor | service/ocpp/ocppHandler.js:7 | the map starts empty |
| SessionRegistry.Registry.Connect | service/ocpp/ocppHandler.js:51-62 | the map becomes Registered; a new key goes last in map order |
| SessionRegistry.Registry.Close | service/ocpp/ocppHandler.js:85-96 | as intended: the map becomes ClosedByConnection, where only the closing connection's own entry is marked; the order is kept. The as-written close is ClosedByIdentity |
| SessionRegistry.Registry.Heartbeat | service/ocpp/ocppHandler.js:114-125 | the map becomes HeartbeatAt, and the reply is the current time |
| SessionRegistry.Registry.StartTransaction | service/ocpp/ocppHandler.js:135-163 | the map becomes Started with the random id, and the reply is Accepted with that id |
| SessionRegistry.Registry.StopTransaction | service/ocpp/ocppHandler.js:165-186 | the map becomes Stopped, and the reply is Accepted |
| SessionRegistry.Registry.GetClient | service/ocpp/ocppHandler.js:254-257 | the connection of any entry, connected or not |
| SessionRegistry.Registry.AllClients | service/ocpp/ocppHandler.js:258-267 | one summary per entry in map order, active <= total |
| CentralSystem.Lookup | service/ocpp/centralSystemService.js:54-288 | the value of a named payload property, present exactly when the name is |
| CentralSystem.GetClient | service/ocpp/centralSystemService.js:11-20 | an empty id and an unregistered id are errors with their messages; otherwise the entry's connection |
| CentralSystem.Normalize | service/ocpp/centralSystemService.js:30-44 | success exactly on a reply; the error is the message, else "OCPP error <code>", else "Unknown error" |
| CentralSystem.Call | service/ocpp/centralSystemService.js:30-44 | the lookup throws outside the try block; otherwise the request is sent and the outcome normalised |
| CentralSystem.NotConnectedThrows | service/ocpp/centralSystemService.js:11-31 | a not-connected charger is reported by an exception, not by a failed result |
| CentralSystem.ClosedChargerIsStillAddressed | service/ocpp/ocppHandler.js:85-96 | a closed connection keeps its entry, so commands to it are still sent |
| CentralSystem.Optional | service/ocpp/centralSystemService.js:112-114 | a property is included only when its value is not null |
| CentralSystem.OptionalNum | service/ocpp/centralSystemService.js:171-174 | a number property is present exactly when given |
| CentralSystem.OptionalText | service/ocpp/centralSystemService.js:256-257 | a text property is present exactly when given |
| CentralSystem.Literal2 | service/ocpp/centralSystemService.js:58-61 | a two-property payload holds exactly its two names and values |
| CentralSystem.Literal3 | service/ocpp/centralSystemService.js:216-219 | a three-property payload holds exactly its three names and values |
| CentralSystem.NamesAppend | service/ocpp/centralSystemService.js:112-114 | the names of a joined payload are the union |
| CentralSystem.LookupAppend | service/ocpp/centralSystemService.js:112-114 | in a joined payload the first part wins |
| CentralSystem.ChangeAvailability | service/ocpp/centralSystemService.js:54-62 | only Operative and Inoperative are sent, checked before the lookup |
| CentralSystem.ChangeConfiguration | service/ocpp/centralSystemService.js:70-78 | a falsy key or missing value is refused before the lookup; both are sent as text |
| CentralSystem.ClearCache | service/ocpp/centralSystemService.js:84-86 | an empty payload |
| CentralSystem.GetConfiguration | service/ocpp/centralSystemService.js:93-96 | `{key}` only for a non-empty array, otherwise an empty payload |
| CentralSystem.RemoteStartTransaction | service/ocpp/centralSystemService.js:106-116 | idTag is required; connectorId is sent only when given |
| CentralSystem.RemoteStopTransaction | service/ocpp/centralSystemService.js:123-130 | a missing transactionId is refused; otherwise it is the only property |
| CentralSystem.Reset | service/ocpp/centralSystemService.js:137-142 | only Hard and Soft are sent, checked before the lookup |
| CentralSystem.UnlockConnector | service/ocpp/centralSystemService.js:149-153 | the connectorId is the only property |
| CentralSystem.GetDiagnostics | service/ocpp/centralSystemService.js:165-176 | location is required; the four optional properties are sent only when given |
| CentralSystem.UpdateFirmware | service/ocpp/centralSystemService.js:186-194 | the fixed location and retrieveDate, with the optional retries |
| CentralSystem.SendLocalList | service/ocpp/centralSystemService.js:204-220 | listVersion, then an array, then Full or Differential are checked in that order |
| CentralSystem.GetLocalListVersion | service/ocpp/centralSystemService.js:226-228 | an empty payload |
| CentralSystem.ReserveNow | service/ocpp/centralSystemService.js:240-259 | connectorId, then expiryDate, then idTag are required in that order; the optional ids are sent only when given |
| CentralSystem.TriggerMessage | service/ocpp/centralSystemService.js:278-288 | requestedMessage is required; connectorId is sent only when given |
| CentralSystem.ValidationPrecedesLookup | service/ocpp/centralSystemService.js:240-250 | an invalid reservation is refused the same way whatever the registry holds |
| CentralRoutes.Invalid | routes/centralSystem.js:11-13 | a validation error gives 400 and its message |
| CentralRoutes.SendResult | routes/centralSystem.js:10-20 | 200 exactly on success, 404 exactly for a not-connected error, 400 for every other error; the body is the result |
| CentralRoutes.AsResult | routes/centralSystem.js:37-39 | an exception becomes a failure carrying its message |
| CentralRoutes.Respond | routes/centralSystem.js:10-39 | 200 exactly when a request was sent and answered; always 200, 400 or 404 |
| CentralRoutes.LowerStringAppend | routes/centralSystem.js:17 | case folding distributes over concatenation |
| CentralRoutes.LowerStringOfLowerCase | routes/centralSystem.js:17 | a lower-case string folds to itself |
| CentralRoutes.FoundAfterPrefix | routes/centralSystem.js:17 | a lower-case pattern at the end of a text is found ignoring case |
| CentralRoutes.NotConnectedMessageReported | routes/centralSystem.js:17 | the service's not-connected message matches the 404 pattern |
| CentralRoutes.NotConnectedIsNotFound | routes/centralSystem.js:17-39 | a command to an unregistered charger is answered 404 |
| CentralRoutes.TrimmedNonEmpty | routes/centralSystem.js:79-80 | the kept keys are non-empty, trimmed and comma-free |
| CentralRoutes.ParseKeys | routes/centralSystem.js:77-80 | the keys are exactly the trimmed comma-separated pieces that are not empty, in order |
| CentralRoutes.TrimAll | routes/centralSystem.js:79 | every piece trimmed, in place |
| CentralRoutes.TrimmedNonEmptyIsFilter | routes/centralSystem.js:79-80 | the recursive filter is `.map(trim).filter(k => k)` |
| CentralRoutes.KeysOf | routes/centralSystem.js:77-80 | an absent value gives no keys; otherwise the parsed keys |
| CentralRoutes.CleanKeysSurvive | routes/centralSystem.js:79-80 | clean keys pass the trim and filter unchanged |
| CentralRoutes.ParseJoinedKeys | routes/centralSystem.js:77-80 | parsing a comma-joined list of clean keys gives the list back |
| CentralRoutes.ChangeAvailabilityRoute | routes/centralSystem.js:23-41 | connectorId, then a truthy type, then the command |
| CentralRoutes.ChangeConfigurationRoute | routes/centralSystem.js:43-61 | a truthy key, then a value, then the command |
| CentralRoutes.ClearCacheRoute | routes/centralSystem.js:63-72 | 200 exactly for a registered charger that replies |
| CentralRoutes.GetConfigurationRoute | routes/centralSystem.js:74-87 | the keys come from the query string |
| CentralRoutes.RemoteStartRoute | routes/centralSystem.js:89-105 | a truthy idTag, then the command |
| CentralRoutes.RemoteStopRoute | routes/centralSystem.js:107-123 | a transactionId, then the command |
| CentralRoutes.ResetRoute | routes/centralSystem.js:125-138 | a truthy type, then the command; 200 only for Hard or Soft |
| CentralRoutes.UnlockConnectorRoute | routes/centralSystem.js:140-156 | a connectorId, then the command |
| CentralRoutes.GetDiagnosticsRoute | routes/centralSystem.js:158-177 | a truthy location, then the command |
| CentralRoutes.UpdateFirmwareRoute | routes/centralSystem.js:179-192 | no checks; 200 exactly for a registered charger that replies |
| CentralRoutes.SendLocalListRoute | routes/centralSystem.js:194-215 | listVersion, then an array, then a truthy updateType, then the command |
| CentralRoutes.GetLocalListVersionRoute | routes/centralSystem.js:217-226 | 200 exactly for a registered charger that replies |
| CentralRoutes.ReserveNowRoute | routes/centralSystem.js:228-249 | connectorId, then expiryDate, then idTag, then the command |
| CentralRoutes.TriggerMessageRoute | routes/centralSystem.js:251-267 | a truthy requestedMessage, then the command |
| CentralRoutes.TriggerMessageTypesRoute | routes/centralSystem.js:269-273 | 200 with every MessageTrigger value keyed by itself |
| CentralRoutes.ReservationForUnknownChargerIsNotFound | routes/centralSystem.js:228-249 | a well-formed reservation for an unregistered charger is answered 404 |
| CentralRoutes.RouteCheckComesFirst | routes/centralSystem.js:233-236 | a reservation without an expiry date is refused by the route with its own message |
| MeterValues.Normalize | service/ocpp/meterValueService.js:27-34 | value defaults to "", context to Sample.Periodic, format to Raw; the rest is copied |
| MeterValues.NormalizeKeepsStoredSample | service/ocpp/meterValueService.js:27-34 | normalising a stored sample gives it back |
| MeterValues.EntrySamples | service/ocpp/meterValueService.js:24-37 | an entry without a sampledValue array contributes nothing; otherwise one sample per value |
| MeterValues.FlattenSnoc | service/ocpp/meterValueService.js:22-39 | one more entry appends exactly that entry's samples |
| MeterValues.Flatten | service/ocpp/meterValueService.js:22-39 | every flattened sample comes from some entry, and every sample of every entry is in the result |
| MeterValues.ValidMeterRecord | model/ocpp/MeterValue.js:5-98 | a record without charge point, connector or a valid timestamp, or with a sample whose value is empty, is refused; one without samples needs only those three |
| MeterValues.FlattenAppend | service/ocpp/meterValueService.js:22-39 | flattening keeps message order across entries |
| MeterValues.SkippedEntry | service/ocpp/meterValueService.js:24-25 | an entry without a sampledValue array adds nothing |
| MeterValues.FlattenSamples | service/ocpp/meterValueService.js:22-39 | the nested loops compute the flattening, or nothing without a meterValue array |
| MeterValues.MeterStore.constructor | model/ocpp/MeterValue.js:111 | the collection starts empty |
| MeterValues.MeterStore.CreateFromOcpp | service/ocpp/meterValueService.js:16-52 | as written: the record takes the message's top-level timestamp, so a message without one is refused with nothing stored; otherwise one record holding all samples with that timestamp and the transactionId (or null), unless the record is invalid |
| MeterValues.MeterStore.Store | service/ocpp/meterValueService.js:41-51 | one record holding every sample at the given time, with the transactionId (0 or missing stored as null), is appended under the next id; a missing time or an invalid field refuses it and changes nothing |
| MeterValues.EntryTime | service/ocpp/meterValueService.js:17-19 | the timestamp of the first `meterValue` entry; the top-level timestamp when there is no entry |
| MeterValues.TopLevelTimestampRefusesOcppMessages | service/ocpp/meterValueService.js:41-51 | as written: a message with entries but no top-level timestamp, valid otherwise, is refused; taken at its entry time, the same record is valid |
| MeterValues.MeterStore.CreateFromOcppAtEntryTime | service/ocpp/meterValueService.js:16-52 | as intended: the record takes the first entry's timestamp, so an OCPP 1.6 message is stored; otherwise as CreateFromOcpp |
| MeterValues.GetMeterValues | service/ocpp/meterValueService.js:64-92 | the selected records, newest first, at most `limit || 100`, all of them when fewer; as a multiset the result is part of the matches, so no record is repeated; every record left out is no newer than those returned |
| MeterValues.GetMeterValuesLength | service/ocpp/meterValueService.js:64-92 | the listing holds exactly the smaller of the number of selected records and `limit || 100` |
| MeterValues.LatestMeterValue | service/ocpp/meterValueService.js:97-104 | the newest record of the connector, none exactly when there is none |
| MeterValues.ForTransaction | service/ocpp/meterValueService.js:109-111 | exactly the transaction's records, as a multiset of the store's matches, oldest first |
| MeterValues.LastMatch | service/ocpp/meterValueService.js:127-142 | the last matching sample, none exactly when none matches |
| MeterValues.FirstMatch | service/ocpp/meterValueService.js:145-162 | the first matching sample, none exactly when none matches |
| MeterValues.ReadingOf | service/ocpp/meterValueService.js:133-139 | a reading exactly when a sample was found |
| MeterValues.Minus | service/ocpp/meterValueService.js:166-177 | the difference of two numbers; NaN when either is NaN |
| MeterValues.Thousandth | service/ocpp/meterValueService.js:166-177 | a number divided by 1000; NaN stays NaN |
| MeterValues.Report | service/ocpp/meterValueService.js:166-187 | energyWh = stop - start; energyKwh equals it for a kWh unit, otherwise it is energyWh / 1000 |
| MeterValues.EnergyUnit | service/ocpp/meterValueService.js:166-173 | the unit of the first energy sample of the first record that names a unit, every earlier energy sample naming none; "Wh" when no energy sample names a unit |
| MeterValues.StartStop | service/ocpp/meterValueService.js:144-162 | no start reading exactly when there is no Transaction.Begin energy sample and no energy sample in the first record; likewise for the stop reading with Transaction.End and the last record |
| MeterValues.Energy | service/ocpp/meterValueService.js:116-190 | null for no records; otherwise a report exactly when both readings were settled |
| MeterValues.BeginAndEndSamplesDecide | service/ocpp/meterValueService.js:127-142 | with Transaction.Begin and Transaction.End energy samples, the last of each is used |
| MeterValues.NoEnergySamplesNoReport | service/ocpp/meterValueService.js:145-162 | records without energy samples give no report |
| MeterValues.AllSamplesIn | service/ocpp/meterValueService.js:127-142 | every scanned sample comes from some record |
| MeterValues.FirstAndLastRecordsDecide | service/ocpp/meterValueService.js:145-162 | without Begin and End samples, the first energy samples of the first and last records decide |
| MeterValues.LastMatchSnoc | service/ocpp/meterValueService.js:127-142 | a later match replaces the earlier one |
| MeterValues.FindFirst | service/ocpp/meterValueService.js:149-154 | the early-exit loop returns the first match |
| MeterValues.ScanSamples | service/ocpp/meterValueService.js:130-141 | the inner loop leaves the readings of the last Begin and End samples seen so far |
| MeterValues.ScanBeginEnd | service/ocpp/meterValueService.js:127-142 | the nested loops leave the readings of the last Begin and End samples |
| MeterValues.EnergyFromMeterValues | service/ocpp/meterValueService.js:116-190 | the method computes Energy of the transaction's records in ascending order |
| MeterValues.PowerOf | service/ocpp/meterValueService.js:220-233 | a value exactly for a numeric power sample, in kW: as given for kW, otherwise divided by 1000 |
| MeterValues.PowerRecords | service/ocpp/meterValueService.js:195-215 | exactly the connector's records within the dates, as a multiset of the store's matches, oldest first |
| MeterValues.MaxPower | service/ocpp/meterValueService.js:244 | at least every value and equal to one of them |
| MeterValues.MinPower | service/ocpp/meterValueService.js:245 | at most every value and equal to one of them |
| MeterValues.Summarize | service/ocpp/meterValueService.js:238-253 | null exactly without values; otherwise count, average, maximum and minimum of the values |
| MeterValues.SumPowerBounds | service/ocpp/meterValueService.js:243 | a sum of values between lo and hi lies between n·lo and n·hi |
| MeterValues.AverageBetweenMinAndMax | service/ocpp/meterValueService.js:242-245 | min <= average <= max |
| MeterValues.RecordPowerValues | service/ocpp/meterValueService.js:219-235 | the inner loop collects the record's power values in order |
| MeterValues.PowerStatistics | service/ocpp/meterValueService.js:195-254 | the method computes Summarize of the power values of the selected records |
| StatusNotifications.Compose | service/ocpp/statusNotificationService.js:22-28 | the arguments and a timestamp defaulting to now, with every additionalData key spread on top |
| StatusNotifications.PlainNotification | service/ocpp/statusNotificationService.js:22-28 | without additional data the record holds exactly the arguments, stamped now |
| StatusNotifications.StatusLog.constructor | service/ocpp/statusNotificationService.js:3-6 | the log starts empty |
| StatusNotifications.StatusLog.Save | service/ocpp/statusNotificationService.js:16-36 | a valid composed record is appended; an invalid one is refused and the log is unchanged |
| StatusNotifications.ByChargePoint | service/ocpp/statusNotificationService.js:44-64 | matching records only, newest first; as a multiset part of the matches, so no record is repeated; exactly the smaller of the number of matches and the limit (all matches without a limit); every match left out is no newer than those returned |
| StatusNotifications.ValidStatusRecord | model/ocpp/StatusNotification.js:5 | a record is accepted exactly when its chargePointId is not empty |
| StatusNotifications.Latest | service/ocpp/statusNotificationService.js:72-79 | the newest record of the connector, none exactly when there is none |
| StatusNotifications.LatestHeadsListing | service/ocpp/statusNotificationService.js:44-79 | the latest record exists exactly when the listing is non-empty, and is as recent as its head |
| StatusNotifications.SavedIsListed | service/ocpp/statusNotificationService.js:16-64 | a saved record shows up in its unlimited listing |
| Locations.Updated | service/management/locationService.js:34-41 | the supplied fields replace the stored ones, and updatedAt is stamped |
| Locations.EmptyUpdateOnlyStamps | service/management/locationService.js:34-41 | an update with no fields only moves updatedAt |
| Locations.LocationIndex | service/management/locationService.js:14-16 | the index of the location with that key, or the length |
| Locations.ChargePointIndex | service/management/locationService.js:58-60 | the index of the charge point with that key, or the length |
| Locations.Unassigned | service/management/locationService.js:45-48 | every reference to the location is cleared and nothing else changes |
| Locations.ChargePointsAt | service/management/locationService.js:76-80 | exactly the charge points assigned to the location |
| Locations.NothingAtUnassigned | service/management/locationService.js:43-50 | after the cleanup nothing is listed at the location |
| Locations.Assign | service/management/locationService.js:57-71 | an unknown charge point or location is an error; otherwise only that charge point's locationId changes |
| Locations.AssignedIsListed | service/management/locationService.js:57-80 | an assigned charge point is listed at its location and at no other |
| Locations.LocationStore.constructor | service/management/locationService.js:4-8 | no locations; the given charge points |
| Locations.LocationStore.CreateLocation | service/management/locationService.js:22-32 | a taken name is refused first; with a free name an invalid draft gets the validation error, and a valid draft with a taken id the duplicate-id error; otherwise one location is appended |
| Locations.ValidNewLocation | model/management/Location.js:4-6 | a location without id, name or address, or with one of them empty, is refused |
| Locations.LocationStore.UpdateLocation | service/management/locationService.js:34-41 | null for an unknown key; a duplicate id is refused; otherwise the location becomes Updated |
| Locations.LocationStore.DeleteLocation | service/management/locationService.js:43-50 | the loop clears every reference, then the location is removed and returned |
| Locations.LocationStore.UpdateChargePointLocation | service/management/locationService.js:57-71 | as intended: the charge points become Assign of the old ones, keeping the locationId, or the error is returned with nothing changed. The as-written save drops that path (PersistAsWritten) |
| Locations.PersistAsWritten | model/ocpp/ChargePoint.js:3-42 | saving under the declared schema keeps the charge point but drops its locationId |
| Locations.AssignmentLostAsWritten | service/management/locationService.js:68-69 | under that schema a successful assignment, once saved, leaves the store as if the charge point had been unassigned, so the location's listing does not contain it |
| AuthMiddleware.Token | middleware/authMiddleware.js:21-23 | the header after "Bearer ", or the whole header |
| AuthMiddleware.BearerRoundTrip | middleware/authMiddleware.js:21-23 | a bearer header carries exactly its token |
| AuthMiddleware.EmptyTokenOnlyForBareBearer | middleware/authMiddleware.js:21-30 | a non-empty header yields an empty token exactly when it is "Bearer " |
| AuthMiddleware.Authenticate | middleware/authMiddleware.js:8-65 | each refusal is 401 with its message; a request passes exactly when the token verifies and the user exists |
| AuthMiddleware.VerificationMessageKept | middleware/authMiddleware.js:33-39 | a failed verification is answered with its own message, or the default |
| AuthMiddleware.OptionalUser | middleware/authMiddleware.js:71-98 | a user exactly when the token verifies and the user exists |
| AuthMiddleware.OptionalAgreesWithStrict | middleware/authMiddleware.js:8-98 | the optional guard attaches exactly the user the strict guard would let through |
| AuthMiddleware.Authorize | middleware/authMiddleware.js:105-122 | 401 without a user, 403 for a role not listed, a pass exactly otherwise |
| AuthMiddleware.AuthorizeMonotone | middleware/authMiddleware.js:105-122 | allowing more roles never turns a pass into a refusal |
| AuthMiddleware.Exchange.constructor | middleware/authMiddleware.js:8 | a request with its header, no user and no response |
| AuthMiddleware.Exchange.RunAuthenticate | middleware/authMiddleware.js:8-65 | on a pass the user and id are attached and next is called once; otherwise the refusal is sent and next is not called |
| AuthMiddleware.Exchange.RunOptionalAuthenticate | middleware/authMiddleware.js:71-98 | next is always called once; the user is attached only when one was found |
| AuthMiddleware.Exchange.RunAuthorize | middleware/authMiddleware.js:105-122 | next is called once on a pass; otherwise the refusal is sent |

## Left out

- Transport and timers are left out: the RPC server wiring, handler registration and the `Promise.race` timeout in
  `call`. The outcome of a remote call is an input, and a timeout is a rejection carrying "Request timeout".
- The ChargePoint upsert on connect is left out; it is persistence only.
- Database internals are left out: population, aggregation stages and index mechanics. Collections are sequences,
  queries are filter, sort and limit, and a unique index is an explicit duplicate check.
- Clocks, random numbers, local-time conversion and `parseFloat` are parameters. NaN is a separate reading value;
  IEEE float behaviour is not modelled, and amounts are exact reals.
- Sorts: among records with equal keys, the model's sort keeps store order. The database does not promise an
  order for ties.
- `Number(...)` and `String(...)` coercions of request fields are not modelled. Request fields arrive already typed.
  Enum values outside the schema's enumerations cannot be represented.
- The regular expression `/not connected|Charge point .* is not connected/i` is modelled by its first
  alternative. Every text matching the second alternative also contains "not connected".
- `saveAuthorization` in service/ocpp/authorize.js is a persistence-only audit write and is left out.
- The ocppHandler handlers for MeterValues, Authorize, StatusNotification, DataTransfer, FirmwareStatusNotification
  and DiagnosticsStatusNotification only log and return a fixed reply. They are left out; the services they would
  call are modelled in their own modules.
- getConsumptionById, the plain by-id and by-name lookups of locations, the `get*ById` of payments and
  `deleteMeterValues` are single queries without logic of their own, and are left out.
- The average and peak power fields of a consumption record are left out; no code computes them.
- The token verifier and `User.findById` are parameters (`verify`, `findUser`). Bearer parsing and the decisions
  around them are modelled.
- `success: false` in the JSON error bodies is implicit in the result datatype.
- Transactions.TransactionLedger.GenerateTransactionId: the fallback id, floor(now / 1000) + random, is not proved
  fresh, because the source does not check it. All ten attempts and the fallback read one clock value `now`,
  where the source reads `Date.now()` at each; only the seconds-based proposal for an empty store depends on it.
- Payments.PaymentStore.UpdatePayment: a negative amount in an update is accepted, as in the source.
  model/management/Payment.js declares `amount` with no `min`, so no validator refuses it.
- PricingService.PricingStore.Create: `userId` is not a path of model/management/Pricing.js, so a saved plan never
  carries one. The per-user selection is therefore modelled over plans that may carry one, and
  PricingService.NoUserPricingInStore states the consequence for the store. Both assume the query keeps its
  `userId` filter although the schema does not declare that path, as Mongoose does with `strictQuery` off
  (Mongoose 5, and 7 or later). Under Mongoose 6, where `strictQuery` is on by default, the filter is stripped and
  `getActivePricingForUser` returns the newest active plan valid now for any user; that variant is not modelled.
- TariffService.TariffPatch: a `companyId` in the update data of `updateTariff` cannot be expressed, so the model
  keeps the stored companyId, and an explicit `null` cannot clear `timeBasedPricing`. Only `validUntil` can be
  cleared. The source spreads whatever the caller sends.
- Locations.LocationFields: an explicit `null` in the update data cannot clear `latitude`, `longitude` or
  `description`; a field is either given a value or left as stored.
- Consumption.WithDefaults: `tariffId` is not a path of model/management/Consumption.js and is dropped on save.
- MeterValues.MeterStore.CreateFromOcpp: a sampled value without `value` defaults to "", which the schema's required
  check refuses. The whole message is then refused, as written.
- Concurrency is left out: every operation runs to completion before the next starts. In the source, these
  check-then-write sequences are separate database calls and are not atomic: the tariff conflict check and the
  write, `createLocation`'s name check and insert, the consumption duplicate check and insert, and
  `generateTransactionId`'s read of the highest id and the insert. The no-overlap invariant proved here, and the
  duplicate checks the other three sequences make, hold for sequential calls only.
- Consumption.ConsumptionStore.CreateManual: the transactionId given is not checked for an existing record,
  because the source does not check it on this path.

## Findings

| source | as written | input that shows it | evidently intended | confidence | as-written member | corrected member |
|---|---|---|---|---|---|---|
| service/management/tariffService.js:306-308 | `deactivateTariff` calls `updateTariff`, which runs the conflict check on the tariff's own windows against the other active tariffs | an inactive tariff with window 08:00-10:00 on a connector that has an active tariff with the same window: deactivating it fails with a conflict | deactivation is a soft delete that cannot create a conflict, so it needs no check | not executed | TariffService.DeactivatingInactiveTariffConflicts | TariffService.TariffStore.Deactivate |
| service/ocpp/ocppHandler.js:85-96 | the close handler looks up and marks the entry registered under the closing connection's identity | CP1 connects (client 1), reconnects (client 2), then client 1's close event arrives: the live entry of client 2 is marked disconnected | only the closing connection's own entry is marked | not executed | SessionRegistry.StaleCloseDisconnectsLiveConnection | SessionRegistry.OnlyTheClosingConnectionIsMarked |
| service/management/locationService.js:68-69 | `updateChargePointLocation` sets `locationId` on a charge point, but model/ocpp/ChargePoint.js does not declare that path, so the save drops it | assigning an existing location to an existing charge point succeeds, yet `getChargePointsByLocation` then does not list it. This assumes the listing keeps its `locationId` filter, as Mongoose does with `strictQuery` off (Mongoose 5, and 7 or later); under Mongoose 6's default `strictQuery: true` the undeclared filter path is stripped and every charge point is listed instead | the charge point schema declares `locationId`, so the assignment is stored and listed | not executed; assumes the default strict schema mode. The Mongoose version is not part of this model: from Mongoose 6 on, `strictPopulate` also makes the `populate("locationId")` at line 70 reject after the save, so the call fails instead of succeeding, and the assignment is lost either way | Locations.AssignmentLostAsWritten | Locations.AssignedIsListed |
| service/management/tariffService.js:258-289 | `updateTariff` runs the conflict check in the stored tariff's scope (its old chargePointId and connectorId), then writes an update that may change that scope | two active tariffs with the same Monday 08:00-10:00 window on CP1 connector 1 and on CP2 connector 1; updating the first with chargePointId "CP2" passes the check and leaves two overlapping active tariffs on CP2 | the patched tariff is checked in the scope it will have after the update | not executed | TariffService.UpdateMovesTariffIntoConflict | TariffService.TariffStore.UpdateInNewScope |
| service/management/tariffService.js:128-166 | `updateConnectorTariff` checks the newest active tariff in scope (sorted by validFrom, createdAt), but `findOneAndUpdate` without a sort writes the first matching tariff in store order | on CP1 connector 1, tariff a (Monday 08:00-10:00, created first) and tariff b (Tuesday 08:00-10:00, created later); a patch with the Tuesday window passes the check for b, is written to a, and leaves two overlapping active Tuesday tariffs | the tariff that was checked is the one updated | not executed | TariffService.ConnectorUpdateWritesUncheckedTariff | TariffService.TariffStore.UpdateCheckedConnectorTariff |
| service/ocpp/meterValueService.js:45 | the record's timestamp is `new Date(params.timestamp)`, the message's top-level timestamp | a MeterValues.req as OCPP 1.6 defines it: connectorId 1 and one `meterValue` entry with its own timestamp and a sample "1200", no top-level timestamp; the invalid date fails the required timestamp path and save throws | the record takes the entries' time, here the first entry's timestamp | not executed; which entry's time was meant is a guess | MeterValues.TopLevelTimestampRefusesOcppMessages | MeterValues.MeterStore.CreateFromOcppAtEntryTime |
