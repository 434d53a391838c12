# Villa rental booking core in Dafny

This project models the booking core of a villa rental platform: an Express back end with a
React front end. It covers:

- the back end's **hold → confirm → refund** booking lifecycle over in-memory tables, with
  Stripe as an abstract gateway;
- the bulk calendar blocking loop and the review handler with its loyalty credit;
- listing creation, the public search, the hand-rolled request validator and the role gate;
- the zod input schemas of `backend/schema.ts`, as data with an interpreter;
- the front-end rules that apply the same booking logic: the host calendar's 35-day grid, the
  guest trip dashboard, the listing price estimate, the checkout wizard and the global store.

Modules follow the program's structure:

| module | file | models |
|---|---|---|
| `Common` | common.dfy | Option, order-preserving `filter`, `find`, `slice(0, 10)`, `Math.round`, `Math.ceil` of a quotient |
| `IsoDate` | iso_date.dfy | Gregorian dates, ISO 8601 extended calendar strings (`YYYY-MM-DD`, section 4.1.2.2 of ISO 8601:2004), JavaScript string comparison |
| `MiniValidator` | validator.dfy | the `Joi.object` stand-in of backend/server.ts |
| `Schema`, `SchemaRules` | schema.dfy, schema_rules.dfy | the zod schemas and what each accepts |
| `ServerData` | server_data.dfy | table rows, role gate, hold pricing, listing defaults, search |
| `ServerHandlers` | server_handlers.dfy | the handlers as methods of a `Server` class over its tables |
| `HostCalendar` | host_calendar.dfy | UV_HostCalendar.tsx |
| `GuestTrips` | guest_trips.dfy | UV_GuestTripsDashboard.tsx |
| `ListingDetail` | listing_detail.dfy | UV_ListingDetail.tsx |
| `WizardCheckout` | wizard_checkout.dfy | UV_WizardCheckout.tsx |
| `AppStore` | app_store.dfy | store/main.tsx |

Units:

- Back-end calendar dates are integer day numbers, so nights are `check_out - check_in`.
- Instants are integer milliseconds.
- Money is a Dafny `real` in dollars, and the payment amount is integer cents.
- Ids from `genId` / `randomUUID`, the clock, and the answers of Stripe and the back end are
  parameters of the operations that use them.
- Every Stripe call is logged in `Server.gatewayCalls`.

The hold handler in backend/server.ts cannot write as written:

- Line 224 reads an undeclared `intent`, a ReferenceError.
- Line 228 names seven columns but supplies six values.

The model follows the evident intent, and the comments of `ServerHandlers.HoldRow` and
`ServerHandlers.HoldEvent` say so. The hold price leaves the damage waiver out of the fees (backend/server.ts:205): three
nights at 1000 a night, with a cleaning fee of 200 and a service ratio of 0.1, are quoted
3000 + 500 + 300 = 3800 (`ServerData.ThreeNightExample`), whatever the villa's damage
waiver ratio.

## Model

| member | source | states |
|---|---|---|
| Common.JsRound | backend/server.ts:210 | `Math.round` gives the integer within half a unit, halves rounded up |
| Common.CeilDiv | vitereact/src/components/views/UV_GuestTripsDashboard.tsx:135 | `Math.ceil(x / d)` is the least integer r with x <= r·d |
| Common.Prefix10 | vitereact/src/components/views/UV_HostCalendar.tsx:117 | `slice(0, 10)` is the first min(len, 10) characters |
| Common.First | vitereact/src/components/views/UV_HostCalendar.tsx:126 | `find`: None iff no element matches, otherwise the first matching element |
| IsoDate.NextDay | vitereact/src/components/views/UV_HostCalendar.tsx:115 | the next calendar day is later, valid, and in the same year or on 1 January of the next |
| IsoDate.AddDaysStaysValid | vitereact/src/components/views/UV_HostCalendar.tsx:113-116 | up to 58 days after a valid date before the year 9999 are valid dates, crossing at most into January or February of the next year |
| IsoDate.IsoInstant | backend/server.ts:232 | `toISOString()` has the ISO date, then `T`, and `:` separators |
| IsoDate.IsoOrder | vitereact/src/components/views/UV_HostCalendar.tsx:117 | JavaScript `<` on two ISO date strings holds iff the first date is earlier |
| IsoDate.IsoInjective | vitereact/src/components/views/UV_HostCalendar.tsx:126 | two ISO date strings are `===` iff the dates are equal |
| MiniValidator.FirstAbsent | backend/server.ts:57-59 | the first considered key of the shape that the body leaves undefined, and None iff all are defined |
| MiniValidator.AsWritten | backend/server.ts:55-60 | not an object → `not-object`; passes iff every shape key is defined; throws iff the first missing key's entry is an uncalled `.optional` |
| MiniValidator.ValidateAsWritten | backend/server.ts:53-61 | the key loop returns exactly `AsWritten` |
| MiniValidator.Validate | backend/server.ts:58 | the intended validator never throws, and passes iff every required key is defined; otherwise it reports the first missing required key |
| MiniValidator.CorrectedAgrees | backend/server.ts:58 | whenever the written validator does not throw, the intended one gives the same answer |
| MiniValidator.BookingWithoutChildrenCrashes | backend/server.ts:187-194 | a hold body without `children` makes the written validator throw, and the intended one accepts it |
| MiniValidator.AllUndefinedCrashes | backend/server.ts:55-60 | a shape whose entries are all uncalled `.optional` throws on every object that leaves out any of its keys |
| MiniValidator.SearchQueryCrashesUnlessComplete | backend/server.ts:153-160 | as written, a search query passes iff it carries all six parameters and throws as soon as any one is missing; the intended validator accepts every object |
| MiniValidator.ReviewBodyRequiresAll | backend/server.ts:280-285 | a review body passes iff all four keys are defined |
| MiniValidator.BookingBodyRequired | backend/server.ts:187-194 | the intended validator accepts a hold body iff the four required keys are defined |
| Schema.Trunc | backend/schema.ts:348-349 | truncation toward zero, as `new Date(number)` applies it |
| Schema.CoerceDate | backend/schema.ts:348-349 | `z.coerce.date()` accepts a date within the time-value range and keeps its value |
| Schema.ParseObject | backend/schema.ts:345-355 | `z.object` succeeds iff no field is rejected; the output has only shape keys, and each one holds the field's parsed value |
| SchemaRules.IntLeaf | backend/schema.ts:350 | an integer leaf with bounds accepts exactly the integers in range |
| SchemaRules.RatingsValid | backend/schema.ts:99-105 | ratings parse iff each of the five is an integer in 1..5 |
| SchemaRules.CreateBookingValid | backend/schema.ts:345-355 | a booking parses iff: the ids are strings, the dates are dates, adults is an integer in 1..99, children and infants are integers in 0..99, all seven fields required, and check_out > check_in |
| SchemaRules.CreateBookingFields | backend/schema.ts:345-352 | the per-field conditions of the booking shape |
| SchemaRules.ParseDateOrder | backend/schema.ts:353 | a date-order refinement fails exactly on given dates in the wrong order |
| SchemaRules.UpdateBookingValid | backend/schema.ts:357-371 | an update parses iff each present field is well-typed, and the dates are ordered only when both are given |
| SchemaRules.UpdateBookingCombine | backend/schema.ts:357-371 | the update parses iff each field does |
| SchemaRules.UpdateBookingFields | backend/schema.ts:357-369 | the per-field conditions of the update shape |
| SchemaRules.UpdateBookingAnyStatus | backend/schema.ts:364 | an update to any of the five statuses parses: there is no transition rule |
| SchemaRules.CreateCalendarEventValid | backend/schema.ts:454-463 | an event parses iff its fields are well-typed and end_date > start_date |
| SchemaRules.UpdateCalendarEventValid | backend/schema.ts:465-472 | an event update parses iff its fields are well-typed, with no date-order check |
| SchemaRules.ReversedDatesPassUpdateOnly | backend/schema.ts:454-472 | reversed dates are refused on create and accepted on update |
| SchemaRules.CreatePricingRuleValid | backend/schema.ts:491-502 | a rule parses iff: the percent is in [-100, 100], min_nights and priority are positive integers, and end >= start when both are given |
| SchemaRules.CreatePricingRuleCombine | backend/schema.ts:491-501 | the rule parses iff each field does |
| SchemaRules.CreatePricingRuleFields | backend/schema.ts:491-501 | the per-field conditions of the rule shape |
| SchemaRules.PricingRulePriorityDefault | backend/schema.ts:499 | an accepted rule's priority is the given one, or 10 |
| SchemaRules.ParseObjectUnion | backend/schema.ts:217-233 | a shape split into parts with disjoint keys parses iff every part does |
| SchemaRules.VillaPriceValid | backend/schema.ts:228-231 | base price > 0, cleaning fee >= 0, both ratios in [0, 1] |
| SchemaRules.CreateVillaPriceBounds | backend/schema.ts:217-233 | a villa is created only within those price bounds |
| SchemaRules.StoredRatioUnbounded | backend/schema.ts:205-206 | a ratio above 1 is refused on create and accepted by the stored villa schema; both refuse negatives |
| SchemaRules.TicketCombine | backend/schema.ts:768-775 | the ticket fields other than the priority |
| SchemaRules.TicketDefaultRejected | backend/schema.ts:773 | as written, every ticket that leaves out the priority is refused |
| SchemaRules.TicketDefaultMedium | backend/schema.ts:773 | with `medium` in the enum, such a ticket parses iff its other fields do, with priority `medium` |
| SchemaRules.ParseObjectSameFields | backend/schema.ts:768-775 | shapes whose fields parse alike give the same result |
| SchemaRules.TicketCorrectionConservative | backend/schema.ts:773 | every ticket accepted as written is accepted identically by the corrected schema |
| SchemaRules.PagingShape | backend/schema.ts:155-156 | the user, villa and booking searches share the limit / offset fields |
| SchemaRules.SearchPaging | backend/schema.ts:155-156 | limit parses iff absent or a positive integer (default 10); offset parses iff absent or a non-negative integer (default 0) |
| ServerData.RoleGate | backend/server.ts:94 | admits iff there is no role list or the role is listed; otherwise 403 `Forbidden` |
| ServerData.RoleGateMonotone | backend/server.ts:94 | listing more roles never turns away an admitted user |
| ServerData.PriceHold | backend/server.ts:202-206 | total = cleaning + nightly·nights·(1.1 + service ratio) |
| ServerData.PriceIgnoresDamageWaiver | backend/server.ts:205 | the damage waiver ratio does not change the quote |
| ServerData.AmountCents | backend/server.ts:210 | the charged cents are within half a cent of the total |
| ServerData.ThreeNightExample | backend/server.ts:202-210 | 3 nights at 1000, cleaning 200, ratio 0.1: 3000 + 500 + 300 = 3800, i.e. 380000 cents |
| ServerData.OrNum | backend/server.ts:319 | `x \|\| d` gives d iff x is missing, 0 or d itself |
| ServerData.Last8 | backend/server.ts:308 | `slice(-8)` is the last 8 characters |
| ServerData.NewVilla | backend/server.ts:306-320 | new listing: draft, unpublished, requester as host; slug defaults to `villa-` plus the id's last 8 characters; pets default to 0; non-zero ratios are kept |
| ServerData.ZeroRatioBecomesDefault | backend/server.ts:319 | a 0 ratio becomes 0.1 / 0.035, as if it had been left out |
| ServerData.DefaultSlugShape | backend/server.ts:308 | the generated slug is 14 characters: `villa-` and the id's tail |
| ServerData.LowerAll | backend/server.ts:168 | ILIKE's letter folding, character by character |
| ServerData.Matches | backend/server.ts:164-168 | only published villas that are not deleted match; a given location must fit inside the villa's city |
| ServerData.MatchesIgnoresCase | backend/server.ts:167 | a location and its lower-case form select the same villas |
| ServerData.InsertByPrice | backend/server.ts:171 | insertion keeps the price order and adds exactly that villa |
| ServerData.SortByPrice | backend/server.ts:171 | `ORDER BY price ASC` is sorted and a permutation of the rows |
| ServerData.Window | backend/server.ts:171 | `LIMIT/OFFSET`: min(limit, rows after offset) rows, none past the end, the rows from `offset` on, in order |
| ServerData.PageBounds | backend/server.ts:169-170 | a missing limit is 10 and a missing offset 0; a supplied value is kept as it is, `0` and negatives included |
| ServerData.RankInSorted | backend/server.ts:171 | in a price-sorted list the villa at position k has at most k cheaper villas and more than k that cost no more |
| ServerData.WindowRank | backend/server.ts:171 | the i-th villa of a page of the sorted matches ranks offset + i by price among the matches |
| ServerData.WindowOfSorted | backend/server.ts:171 | a page of the sorted matches is sorted, as long as the page of the matches, and a sub-multiset of them |
| ServerData.Search | backend/server.ts:161-174 | None iff limit or offset is negative; otherwise exactly min(limit, matches after offset) rows, sorted by price, a sub-multiset of the matching villas of the table, the i-th of them ranking offset + i by price among the matches (fewer than that many matches are cheaper, more cost no more), so the page is fixed up to villas of equal price |
| ServerData.SearchFirstPageComplete | backend/server.ts:169-171 | a first page as long as the table holds every match, with multiplicity |
| ServerData.SearchDefaults | backend/server.ts:169-170 | without parameters: at most 10 villas, all published and not deleted |
| ServerHandlers.HoldKeys | backend/server.ts:196 | the body keys the validator sees as defined |
| ServerHandlers.CheckHold | backend/server.ts:195-206 | 403 for a non-guest; 400 with an empty body when the (corrected) validator refuses; `Villa invalid` without a published villa; `Bad dates` for nights <= 0; accepted iff none of these, with the quote `PriceHold`; under the corrected validator a missing children or infants count is stored as 0; the calendar is never consulted |
| ServerHandlers.HoldRow | backend/server.ts:216-226 | the held booking is `in_progress`, with total = balance = base + fees + taxes |
| ServerHandlers.HoldEvent | backend/server.ts:227-230 | one `manual_hold` event over [check_in, check_out) with the booking id |
| ServerHandlers.ConfirmRows | backend/server.ts:249-254 | the matching booking becomes confirmed, signed now, with balance 0; the other rows are untouched |
| ServerHandlers.RetagEvents | backend/server.ts:255-258 | the booking's events become `booking` with dates unchanged; the other events are untouched |
| ServerHandlers.CancelRows | backend/server.ts:394-397 | the booking becomes cancelled whatever its status; the other rows are untouched |
| ServerHandlers.BlockInserts | backend/server.ts:331-341 | only `blocked` events on the requester's villas are inserted, at most one per block |
| ServerHandlers.BlockInsertsExtremes | backend/server.ts:331-341 | all blocks on owned villas are all inserted under their ids; none owned means none inserted |
| ServerHandlers.Echo | backend/server.ts:340 | every input block comes back in order with its own id, skipped ones included |
| ServerHandlers.ReviewKeys | backend/server.ts:287 | the review keys the validator sees as defined |
| ServerHandlers.ReviewRow | backend/server.ts:290-295 | the review row is the guest's, with the sent booking id, ratings and content; its villa id is the booking id's first ten characters; falsy photos are stored as `[]` |
| ServerHandlers.CreditRow | backend/server.ts:297-300 | 100 dollars expiring twelve 30-day months later |
| ServerHandlers.ReviewWritesAsWritten | backend/server.ts:290-300 | the review is stored iff the booking is the guest's and completed; the credit is always stored |
| ServerHandlers.CreditWithoutReview | backend/server.ts:297-300 | with no bookings at all, no review is stored but a credit is |
| ServerHandlers.ReviewWrites | backend/server.ts:290-300 | intended: the credit is stored iff the review is |
| ServerHandlers.ReviewCorrectionAgrees | backend/server.ts:290-300 | for a stored review the correction changes nothing |
| ServerHandlers.Server.Hold | backend/server.ts:195-233 | a rejected hold writes and calls nothing; otherwise one intent for the amount in cents; a declined intent writes nothing; an approved one appends exactly one booking and one event; the tables stay consistent |
| ServerHandlers.Server.Confirm | backend/server.ts:236-263 | 403 / 404 change nothing; capture comes before any write; a failed capture gives 502 and changes nothing; success applies `ConfirmRows` and `RetagEvents` |
| ServerHandlers.Server.Refund | backend/server.ts:387-399 | 403 / 404 change nothing; after the refund call, `CancelRows`, with amount = total_usd; calendar events untouched |
| ServerHandlers.Server.BulkBlock | backend/server.ts:326-344 | 400 for a non-array body; the loop appends `BlockInserts` and replies 207 with `Echo` |
| ServerHandlers.Server.PostReview | backend/server.ts:286-302 | 403, or 400 with an empty body, change nothing; otherwise the review and credit writes of `ReviewWrites` |
| ServerHandlers.Server.CreateVilla | backend/server.ts:306-322 | a host appends exactly `NewVilla`; no validation |
| HostCalendar.EventsOn | vitereact/src/components/views/UV_HostCalendar.tsx:117 | exactly the events listed on the day |
| HostCalendar.BuildDays | vitereact/src/components/views/UV_HostCalendar.tsx:109-120 | 35 cells; cell i holds the ISO date `since + i` and that day's events |
| HostCalendar.GridDaysValid | vitereact/src/components/views/UV_HostCalendar.tsx:113-116 | every one of the 35 days counted from a valid start date is a valid calendar date |
| HostCalendar.GridDatesIncrease | vitereact/src/components/views/UV_HostCalendar.tsx:113-116 | the cells' dates are consecutive days, strictly increasing as strings |
| HostCalendar.ListedOnHalfOpen | vitereact/src/components/views/UV_HostCalendar.tsx:117 | listed on d iff start <= d < end |
| HostCalendar.CellColour | vitereact/src/components/views/UV_HostCalendar.tsx:203-205 | grey iff blocked; red iff a booking and no block; otherwise green |
| HostCalendar.HoldsLookFree | vitereact/src/components/views/UV_HostCalendar.tsx:203-205 | a day with only holds is green |
| HostCalendar.CellClick | vitereact/src/components/views/UV_HostCalendar.tsx:123-139 | with no villa, nothing; delete the first block starting that day; otherwise create the block [d, next day) with the fixed note |
| HostCalendar.CreatedBlockCoversOneDay | vitereact/src/components/views/UV_HostCalendar.tsx:130-136 | a created block is listed on the clicked day and on no other |
| GuestTrips.TripsPartition | vitereact/src/components/views/UV_GuestTripsDashboard.tsx:45-52 | upcoming and past partition the bookings, with multiplicity |
| GuestTrips.TabsKeepOrder | vitereact/src/components/views/UV_GuestTripsDashboard.tsx:45-52 | both tabs keep the newest-first order |
| GuestTrips.NeedsAttention | vitereact/src/components/views/UV_GuestTripsDashboard.tsx:57-63 | only an upcoming booking needs attention; one that is signed, settled and not in progress does not |
| GuestTrips.PendingCount | vitereact/src/components/views/UV_GuestTripsDashboard.tsx:57-63 | at most the number of bookings; the count plus the bookings needing no attention is the number of bookings; 0 iff no booking needs attention |
| GuestTrips.PendingCountCons | vitereact/src/components/views/UV_GuestTripsDashboard.tsx:57-63 | one more booking adds one to the count exactly when it needs attention |
| GuestTrips.PendingAreUpcoming | vitereact/src/components/views/UV_GuestTripsDashboard.tsx:57-63 | the pending count never exceeds the upcoming tab |
| GuestTrips.CountDown | vitereact/src/components/views/UV_GuestTripsDashboard.tsx:133-136 | never negative; 0 on the past tab or once check-in has passed; otherwise the whole days rounded up |
| GuestTrips.CountDownShownIffAhead | vitereact/src/components/views/UV_GuestTripsDashboard.tsx:202 | the countdown shows iff on the upcoming tab with check-in ahead |
| GuestTrips.DayNoun | vitereact/src/components/views/UV_GuestTripsDashboard.tsx:204 | `day` iff exactly 1 |
| GuestTrips.PendingBanner | vitereact/src/components/views/UV_GuestTripsDashboard.tsx:85-87 | no banner iff count <= 0; plural iff count > 1 |
| ListingDetail.AverageNightly | vitereact/src/components/views/UV_ListingDetail.tsx:72-75 | the villa's base price, or 0 with no villa |
| ListingDetail.AddonSum | vitereact/src/components/views/UV_ListingDetail.tsx:81-83 | no add-ons add nothing; with non-negative prices and guests the sum is never negative |
| ListingDetail.Estimate | vitereact/src/components/views/UV_ListingDetail.tsx:77-85 | 0 without both dates; with both and non-negative add-on prices, at least the nights at the nightly price |
| ListingDetail.TotalEstimate | vitereact/src/components/views/UV_ListingDetail.tsx:77-85 | the loop computes `Estimate`; 0 when a date is missing |
| ListingDetail.AddonSumAppend | vitereact/src/components/views/UV_ListingDetail.tsx:81-83 | one more add-on adds its cost |
| ListingDetail.AddonSumConcat | vitereact/src/components/views/UV_ListingDetail.tsx:81-83 | the add-on sum is additive |
| ListingDetail.EstimateNights | vitereact/src/components/views/UV_ListingDetail.tsx:79-80 | without add-ons: nights × base price; reversed dates give a negative estimate while one night is displayed |
| ListingDetail.DisplayedNights | vitereact/src/components/views/UV_ListingDetail.tsx:185 | shown iff a check-in is chosen, as max(1, nights) |
| ListingDetail.Toggle | vitereact/src/components/views/UV_ListingDetail.tsx:319-324 | a chosen add-on's entries are all removed; otherwise it is appended |
| ListingDetail.ToggleTwice | vitereact/src/components/views/UV_ListingDetail.tsx:319-324 | checking and unchecking restores the list |
| ListingDetail.ToggleOnRaisesEstimate | vitereact/src/components/views/UV_ListingDetail.tsx:319-324 | checking an add-on raises the estimate by its cost |
| WizardCheckout.DefaultDraft | vitereact/src/components/views/UV_WizardCheckout.tsx:68-81 | no dates, 2 adults, no children or infants, no extras, full payment, unsigned |
| WizardCheckout.LastEmpty | vitereact/src/components/views/UV_WizardCheckout.tsx:173-176 | the last empty field, None iff none is empty |
| WizardCheckout.StepErrors | vitereact/src/components/views/UV_WizardCheckout.tsx:166-182 | at most one error, for the step itself: step 1 iff a date is missing; step 2 iff a guest field is empty, reporting the LAST empty one; step 3 iff unsigned |
| WizardCheckout.Decrement | vitereact/src/components/views/UV_WizardCheckout.tsx:242 | the count drops by one and floors at 0; nothing else changes |
| WizardCheckout.Increment | vitereact/src/components/views/UV_WizardCheckout.tsx:244 | the count rises by one; nothing else changes |
| WizardCheckout.IncrementThenDecrement | vitereact/src/components/views/UV_WizardCheckout.tsx:242-244 | `-` undoes `+` |
| WizardCheckout.ToggleExtra | vitereact/src/components/views/UV_WizardCheckout.tsx:253 | checking appends the tag; unchecking keeps the other tags in order and removes every copy |
| WizardCheckout.ToggleExtraTwice | vitereact/src/components/views/UV_WizardCheckout.tsx:253 | checking then unchecking an unchosen extra restores the draft |
| WizardCheckout.Signed | vitereact/src/components/views/UV_WizardCheckout.tsx:322 | loading the contract frame sets the signed flag and nothing else |
| WizardCheckout.HoldExpired | vitereact/src/components/views/UV_WizardCheckout.tsx:150-152 | the intended check fires only from step 3, with a hold, once the clock is past 1000·expiresAt milliseconds |
| WizardCheckout.HoldExpiryOrder | vitereact/src/components/views/UV_WizardCheckout.tsx:150-152 | from step 3 a hold has expired iff now > 1000·expiresAt, and stays expired |
| WizardCheckout.TextToNumber | vitereact/src/components/views/UV_WizardCheckout.tsx:152 | a string with a non-digit is NaN |
| WizardCheckout.ExpiredAsWritten | vitereact/src/components/views/UV_WizardCheckout.tsx:152 | the check as written fires only from step 3 and only on a non-empty text made of digits |
| WizardCheckout.HoldNeverExpiresAsWritten | vitereact/src/components/views/UV_WizardCheckout.tsx:152 | with the ISO text the server sends (backend/server.ts:232), the expiry check is never true |
| WizardCheckout.HoldRequestOf | vitereact/src/components/views/UV_WizardCheckout.tsx:191-198 | the hold body is the draft's dates, counts and extras, plus the route's villa |
| WizardCheckout.Checkout.constructor | vitereact/src/components/views/UV_WizardCheckout.tsx:64-84 | step 1, default draft, no errors, no hold |
| WizardCheckout.Checkout.Validate | vitereact/src/components/views/UV_WizardCheckout.tsx:166-185 | stores `StepErrors` and answers whether the step has no error |
| WizardCheckout.Checkout.OnNext | vitereact/src/components/views/UV_WizardCheckout.tsx:187-203 | an invalid step only records errors; from step 1 exactly one hold request, then step 2 iff granted; from step 2, step 3 with no request |
| WizardCheckout.Checkout.Back | vitereact/src/components/views/UV_WizardCheckout.tsx:352 | one step back |
| WizardCheckout.Checkout.ChangeCount | vitereact/src/components/views/UV_WizardCheckout.tsx:242-244 | applies `Increment` / `Decrement`; counts stay >= 0 |
| WizardCheckout.Checkout.ChangeExtra | vitereact/src/components/views/UV_WizardCheckout.tsx:253 | applies `ToggleExtra` |
| WizardCheckout.Checkout.ContractLoaded | vitereact/src/components/views/UV_WizardCheckout.tsx:322 | applies `Signed` |
| WizardCheckout.Checkout.Tick | vitereact/src/components/views/UV_WizardCheckout.tsx:151-155 | an expired hold pushes `Hold expired!` and goes to `/`; otherwise nothing |
| WizardCheckout.Checkout.Pay | vitereact/src/components/views/UV_WizardCheckout.tsx:361-369 | unsigned or no booking id: nothing; otherwise one confirm request, and the notice plus confirmation page iff accepted |
| WizardCheckout.WalkToReview | vitereact/src/components/views/UV_WizardCheckout.tsx:187-203 | two valid Next presses with a granted hold reach step 3 with exactly one hold request and that hold's booking id and expiry |
| AppStore.Pushed | vitereact/src/store/main.tsx:104-109 | one item with the id appended; earlier items kept |
| AppStore.Popped | vitereact/src/store/main.tsx:110-113 | exactly the items with other ids remain |
| AppStore.PopUndoesPush | vitereact/src/store/main.tsx:104-113 | popping a freshly pushed id restores the list, order included |
| AppStore.PopUnknownAndTwice | vitereact/src/store/main.tsx:110-113 | popping an unknown id changes nothing; popping twice is popping once |
| AppStore.PopCommutesWithPush | vitereact/src/store/main.tsx:104-113 | a push under another id does not change what a pop removes |
| AppStore.Partialize | vitereact/src/store/main.tsx:134-141 | exactly the non-volatile keys, in order |
| AppStore.PersistedKeys | vitereact/src/store/main.tsx:134-141 | `partialize` drops exactly `api_client` and `ws_socket` and keeps the data keys and the actions; the JSON storage then leaves out the function-valued actions |
| AppStore.Store.constructor | vitereact/src/store/main.tsx:72-77 | signed out, no notifications, no socket |
| AppStore.Store.SetAuthUser | vitereact/src/store/main.tsx:87-95 | sets user and token together |
| AppStore.Store.ClearAuthUser | vitereact/src/store/main.tsx:96-100 | clears user and token and drops the socket |
| AppStore.Store.SetScreenSize | vitereact/src/store/main.tsx:103 | sets the screen size |
| AppStore.Store.PushNotification | vitereact/src/store/main.tsx:104-109 | applies `Pushed` |
| AppStore.Store.PopNotification | vitereact/src/store/main.tsx:110-113 | applies `Popped` |
| AppStore.Store.MarkStripeLoaded | vitereact/src/store/main.tsx:116 | sets the Stripe flag |
| AppStore.Store.OpenWs | vitereact/src/store/main.tsx:119-126 | connected socket or no token: nothing; otherwise a new socket with the token |
| AppStore.Store.SocketConnected | vitereact/src/store/main.tsx:120 | the socket's `connected` flag comes up, which `open_ws_connection` then reads to do nothing |
| AppStore.Store.CloseWs | vitereact/src/store/main.tsx:127-130 | no socket afterwards |

## Left out

- Postgres, Express routing, CORS, static serving and the HTTP layer are left out. Responses are `Reply` values, and an exception that escapes a handler is `Aborted`.
- JWT verification, bcrypt and the 401 answers of `requireAuth` are left out. Handlers receive the authenticated user.
- Stripe is left out beyond an approved-or-declined reply per call.
- Concurrency, transactions, the lack of locking and the react-query pending states (the disabled Next button) are left out. Every operation runs alone.
- Floating point is left out: JavaScript doubles are modelled as reals, and `Date` arithmetic as integer milliseconds in UTC.
- ServerHandlers.CheckHold / ServerHandlers.Server.Hold: validate with the corrected validator (see Findings). As written, a hold body without `children` or without `infants` makes the validator throw (`MiniValidator.BookingWithoutChildrenCrashes`), so nothing is replied, Stripe is not called and nothing is written; `value.children||0` and `value.infants||0` at line 223 only rewrite a count that was sent as `null` or 0.
- ServerHandlers.Server.Hold: models the evident intent of lines 221-230. As written, line 224 throws on the undeclared `intent` after the payment intent is created, and the event insert at 228 is malformed, so no booking or event is stored.
- ServerData.Search: applies the `WHERE` filter without the validator: as written, every query that leaves out any of `min_guests`, `max_price`, `location`, `tags`, `limit` or `offset` makes the validator throw (`MiniValidator.SearchQueryCrashesUnlessComplete`). ILIKE's `%`/`_` wildcards inside the location and non-ASCII case folding are not modelled. The order of rows of equal price is fixed, where SQL leaves it open. The reply's `meta` is omitted.
- Request bodies are modelled as well-typed records. ServerHandlers.Server.BulkBlock: a `null` or otherwise malformed entry of `blocks` makes the loop throw with the earlier inserts already stored, and the `try`/`finally` has no `catch`, so no reply is sent (backend/server.ts:331-343). ServerHandlers.Server.PostReview: a `booking_id` that is not a string passes the validator and `.slice` throws (backend/server.ts:294). The zod `min`/`max` string bounds count UTF-16 code units, while the model counts characters.
- ServerHandlers.Server.BulkBlock: collects the inserts of the loop and appends them to the table once the loop ends. The final table is the same, but the states between two inserts are not modelled.
- ServerData.NewVilla: the `/villas` body goes unvalidated into the insert. Only the fields the model keeps are modelled; the description, policies and rooms are left out.
- ServerData.PageBounds: `Number(...)` of a non-numeric query string (NaN) is not modelled; limit and offset are integers or absent.
- ServerHandlers.Server.PostReview: uses the corrected credit rule (see Findings), and its reply reports 0 credits when none is issued.
- The `expires_at` of a hold is an instant (`now + 15 min`) in the model. Its ISO text appears only in `IsoDate.IsoInstant`.
- The unprotected pass-through endpoints, the KPI and payout routes, and the other views under `vitereact/src/components/views/` (search, dashboards, inbox, profile, listing wizard, support ticket, landing and the rest) are left out, because they contain no booking logic.
- HostCalendar.BuildDays: requires a start date before the year 9999, so that every cell is a four-digit ISO date.
- HostCalendar.CellClick: the delete and create requests and the refetch are represented by the returned action.
- WizardCheckout.Checkout.constructor: the `?step=` query parameter is not modelled. Its value is a string, and `as Step` does not convert it. Restoring a saved draft from localStorage is not modelled either.
- WizardCheckout.Checkout.Tick: the effect that starts the interval is modelled as checking on every tick from step 3. The model does not capture that it is set up only when `holdExpiresAt` changes. Tick tests the intended `HoldExpired` against a numeric expiry; the check as written compares with the ISO text and never fires (`WizardCheckout.HoldNeverExpiresAsWritten`, see Findings), so as written no tick ever changes anything.
- WizardCheckout.TextToNumber: reads only plain digit strings. Signed, fractional, exponent, hex, `Infinity` and space-padded numerals are also taken as NaN. The server's timestamp is none of these.
- WizardCheckout.Checkout.Pay: a non-string `booking_id` is not modelled. The localStorage removal is not modelled.
- The document upload, the Stripe card element, the draft's autosave timer and the display strings of the wizard are left out, because they are I/O or rendering.
- AppStore.Store: the axios interceptor that adds the bearer header, and the socket.io connection itself, are left out. Only the state fields are modelled. The id of a pushed notification is a parameter standing for `randomUUID()`.

## Findings

| source | as written | input that shows it | evidently intended | confidence | as-written member | corrected member |
|---|---|---|---|---|---|---|
| backend/server.ts:58 | `!shape[k].optional` on an entry written `Joi.number().optional`: the property is never called, so the entry is `undefined` and reading `.optional` of it throws | a hold body without `children` or `infants`, or any search that leaves out one of its six parameters | entries written `.optional` mark optional keys | high, not executed | MiniValidator.AsWritten, MiniValidator.BookingWithoutChildrenCrashes, MiniValidator.SearchQueryCrashesUnlessComplete | MiniValidator.Validate, MiniValidator.CorrectedAgrees |
| backend/server.ts:297-300 | the loyalty credit is inserted whatever the guarded review insert did | a review for a booking id that does not exist | the credit comes with a stored review | high, not executed | ServerHandlers.ReviewWritesAsWritten, ServerHandlers.CreditWithoutReview | ServerHandlers.ReviewWrites, ServerHandlers.ReviewCorrectionAgrees |
| backend/schema.ts:773 | `TicketPriorityEnum.default('medium')` while the enum is `low`, `high`, `urgent` (line 48) | a ticket without `priority` | `medium` is a valid priority | high, not executed | SchemaRules.TicketDefaultRejected | SchemaRules.TicketDefaultMedium, SchemaRules.TicketCorrectionConservative |
| vitereact/src/components/views/UV_WizardCheckout.tsx:152 | `Date.now() / 1000 > holdExpiresAt`, where `holdExpiresAt` is the ISO text the server sends (backend/server.ts:232); the text converts to NaN | any granted hold, at any time | compare the clock with the hold's expiry time; fixing line 152 alone would not make the check fire, because the effect's dependencies (line 158) are only `[holdExpiresAt]`, which is set once in step 1 (line 116), so the interval is never installed at step 3 unless `currentStep` joins them | medium, not executed | WizardCheckout.ExpiredAsWritten, WizardCheckout.HoldNeverExpiresAsWritten | WizardCheckout.HoldExpired, WizardCheckout.HoldExpiryOrder |
