# Local loyalty rewards: a verified model of the check-in and reward logic

The application lets customers check in by phone number at local businesses
(salons, barbershops, eateries). Each check-in accrues visits or points toward
a reward. This project models in Dafny the four pieces of the program that
make decisions, and proves what they promise:

- **Phone formatter and check-in form** (`check_in_form.dfy`, `phone_format.dfy`).
  The phone field keeps its text formatted as `(XXX) XXX-XXXX` while the user
  types. The check-in button refuses an empty phone or an empty business
  selection. The form picks its success message from the selected business's
  loyalty type.
- **Loyalty dashboard** (`dashboard.dfy`). It shows the points and visits
  totals and the list of reward-ready businesses. Each business gets a row
  with a progress percentage, a "Ready!" badge, a progress bar clamped at 100
  and an "n/T visits" text.
- **Business card** (`business_card.dfy`). It shows the progress value, which
  is not clamped and is 0 for an unknown loyalty type or a missing counter. It
  also shows the progress text and a badge colour per category.
- **Check-in accrual** (`customer_loyalty.dfy`). A customer is found or
  created by phone. The loyalty record of the (customer, business) pair is
  found or created, and its counters are raised. Then a transaction is
  appended. The backend is four in-memory tables: businesses, customers,
  customer_loyalty and transactions. A pure function `CheckInSpec` states the
  transition. The class `Backend` holds the tables as fields, and its
  `CheckIn` method makes the same calls one at a time and is proved equal to
  `CheckInSpec`.

`check_in_effects.dfy` links the parts. It shows how a run of check-ins would
show up on the dashboard, and where the form's message and the real accrual
differ. No code path in the program hands loyalty records to the dashboard:
`src/pages/Index.tsx` renders it from fixed business data. The join that
copies a record's counters into a business (`WithRecord`) is therefore an
assumption of the model, not behaviour of the program.

Supporting modules:

- `businesses.dfy` holds the business record.
- `js_values.dfy` holds the JavaScript number behaviour the views rely on:
  falsy counters, `x || 0`, division by zero giving ±Infinity or NaN, and
  comparisons with NaN. Quotients are exact rationals.
- `wrappers.dfy` holds `Option`.

Decisions where the model departs from a literal reading:

- One `Business` datatype serves all three views. Its shape is the one in
  `src/hooks/useBusinesses.ts`. The card and the form declare their own
  interfaces with the same fields in camelCase and a numeric `id`; the form
  compares `id.toString()` with the selection, so the model keeps the id as
  that string.
- The `type` column is called `category`, because `type` is a Dafny keyword.
- A loyalty type is any string. "Visit-based" and "Points-based" are the only
  two the code tests for.
- Every check-in adds 1 visit, also at a points-based business, and 50 points
  only when the loyalty type is exactly "Points-based"
  (`src/hooks/useCustomerLoyalty.ts:74-75`). `CheckInAmounts` states this.
- Each backend call of a check-in can fail. The model takes the failing call
  as a parameter, `failing: Option<Call>`, so every error path and what it
  leaves behind is proved. A missing business is a separate error. It is
  reached after the customer has been created, and that customer remains.
- New rows get fresh ids from a `nextId` counter. In the program the database
  generates them.
- The check-in form never calls the accrual hook. Its button only flips
  `isCheckedIn`, and the form is modelled that way.

## Model

| member | source | states |
|---|---|---|
| `PhoneFormat.DigitsOnly` | src/components/CustomerCheckIn.tsx:62 | keeps only ASCII digits, never lengthens the text, and leaves a digit string unchanged |
| `PhoneFormat.DigitsOnlyCounts` | src/components/CustomerCheckIn.tsx:62 | every digit occurs in the result as often as in the input, and no other character occurs |
| `PhoneFormat.DigitsOnlyConcat` | src/components/CustomerCheckIn.tsx:62 | stripping non-digits from a concatenation strips each part: digits keep their order |
| `PhoneFormat.FormatPhoneNumber` | src/components/CustomerCheckIn.tsx:61-70 | the formatted text never exceeds the field's maxLength of 14 |
| `PhoneFormat.FormatKeepsFirstTenDigits` | src/components/CustomerCheckIn.tsx:62-69 | the digits of the output are exactly the first min(n, 10) digits of the input, in order |
| `PhoneFormat.NonDigitsIrrelevant` | src/components/CustomerCheckIn.tsx:62 | formatting the input equals formatting its digits alone |
| `PhoneFormat.FormatFillsMask` | src/components/CustomerCheckIn.tsx:65-69 | below 4 digits the output is the bare digit string; from 4 digits on it is the mask `(XXX) XXX-XXXX` filled with the first (at most 10) digits and cut after the last one placed |
| `PhoneFormat.FillMaskMiddle` | src/components/CustomerCheckIn.tsx:66-68 | with 4 to 6 digits the filled mask is `(` + d[0..3] + `) ` + d[3..], with no dash |
| `PhoneFormat.FillMaskFull` | src/components/CustomerCheckIn.tsx:69 | with 7 to 10 digits the filled mask is `(` + d[0..3] + `) ` + d[3..6] + `-` + d[6..] |
| `PhoneFormat.FormatLength` | src/components/CustomerCheckIn.tsx:65-69 | the exact output length (n, n + 3 or min(n, 10) + 4 for n digits), at most 14 |
| `PhoneFormat.FormatEmptyIffNoDigits` | src/components/CustomerCheckIn.tsx:62-65 | the output is empty exactly when the input has no digit |
| `PhoneFormat.FormatIdempotent` | src/components/CustomerCheckIn.tsx:61-70 | formatting a formatted number changes nothing |
| `CheckInForm.Form.constructor` | src/components/CustomerCheckIn.tsx:31-33 | the form starts with an empty phone, no selection and not checked in |
| `CheckInForm.Form.HandlePhoneChange` | src/components/CustomerCheckIn.tsx:72-75 | the phone field holds the formatted input; the other fields are unchanged |
| `CheckInForm.Form.SelectBusiness` | src/components/CustomerCheckIn.tsx:111 | the selection becomes the chosen id; the other fields are unchanged |
| `CheckInForm.Form.HandleCheckIn` | src/components/CustomerCheckIn.tsx:36-47 | an empty phone or selection gives the missing-information warning and leaves `isCheckedIn` unchanged; otherwise `isCheckedIn` becomes true; the inputs are not touched |
| `CheckInForm.FindBusiness` | src/components/CustomerCheckIn.tsx:77 | finds the first business whose id equals the selection, and finds none exactly when no business has that id |
| `CheckInForm.SuccessMessageChoice` | src/components/CustomerCheckIn.tsx:186-188 | the message is "+1 visit" exactly when the selected business exists and is "Visit-based", and "+50 points" otherwise |
| `CheckInForm.PhoneGuardNeedsOneDigit` | src/components/CustomerCheckIn.tsx:37 | after typing, the phone part of the guard passes exactly when the typed text held at least one digit |
| `Dashboard.TotalPointsAppend` | src/components/LoyaltyDashboard.tsx:16-18 | the points total of a concatenation is the sum of the parts' totals |
| `Dashboard.TotalPointsCons` | src/components/LoyaltyDashboard.tsx:16-18 | adding one business adds its points, a missing value counting as 0 |
| `Dashboard.TotalPointsNonNegative` | src/components/LoyaltyDashboard.tsx:16-18 | the points total is non-negative when every counter is |
| `Dashboard.TotalVisitsAppend` | src/components/LoyaltyDashboard.tsx:20-22 | the visits total of a concatenation is the sum of the parts' totals |
| `Dashboard.TotalVisitsCons` | src/components/LoyaltyDashboard.tsx:20-22 | adding one business adds its visits, a missing value counting as 0 |
| `Dashboard.TotalVisitsNonNegative` | src/components/LoyaltyDashboard.tsx:20-22 | the visits total is non-negative when every counter is |
| `Dashboard.AvailableRewards` | src/components/LoyaltyDashboard.tsx:24-29 | a business is listed exactly when it is in the input and its selected counter reaches its threshold |
| `Dashboard.AvailableRewardsIsSublist` | src/components/LoyaltyDashboard.tsx:24-29 | the reward list is an order-preserving sublist of the businesses |
| `Dashboard.AvailableRewardsAppend` | src/components/LoyaltyDashboard.tsx:24-29 | filtering a concatenation filters each part |
| `Dashboard.ReadyBadgeIffAvailable` | src/components/LoyaltyDashboard.tsx:125-144 | with a positive threshold, a row shows "Ready!" exactly when its business is in the reward list |
| `Dashboard.ZeroThresholdDisagrees` | src/components/LoyaltyDashboard.tsx:125-144 | with threshold 0 and counter 0 the business is a ready reward while its row shows "In Progress" (0 / 0 is NaN) |
| `Dashboard.ProgressBar` | src/components/LoyaltyDashboard.tsx:149 | the bar value never exceeds 100 and is never +Infinity; a progress of at most 100 is shown unchanged, one of 100 or more shows as 100, and NaN and -Infinity are kept |
| `Dashboard.ProgressText` | src/components/LoyaltyDashboard.tsx:129-131 | the row text is the selected counter (0 when missing), a slash, the printed threshold, and " visits" for "Visit-based", " points" otherwise |
| `BusinessCard.UnknownTypeShowsZero` | src/components/BusinessCard.tsx:27-35 | a loyalty type other than "Visit-based" and "Points-based" shows 0 |
| `BusinessCard.MissingCounterShowsZero` | src/components/BusinessCard.tsx:28-34 | a missing or zero counter shows 0 |
| `BusinessCard.OtherCounterIrrelevant` | src/components/BusinessCard.tsx:28-32 | only visits matter to a visit-based card and only points to a points-based one |
| `BusinessCard.ProgressValueIsShare` | src/components/BusinessCard.tsx:27-35 | for a known type and a positive threshold the value is the counter's share of the threshold in percent |
| `BusinessCard.ProgressValueMonotone` | src/components/BusinessCard.tsx:29-32 | with a positive threshold the value grows with the counter |
| `BusinessCard.ProgressValueReaches100` | src/components/BusinessCard.tsx:29-32 | with a positive threshold the value reaches 100 exactly when the counter reaches the threshold |
| `BusinessCard.ProgressValueCanExceed100` | src/components/BusinessCard.tsx:98 | the value is not clamped: a counter past the threshold shows more than 100 |
| `BusinessCard.ProgressText` | src/components/BusinessCard.tsx:37-42 | the text is the selected counter (printed `undefined` when missing), a slash, the printed threshold, and " visits" for "Visit-based", " points" otherwise |
| `BusinessCard.TypeColorMapping` | src/components/BusinessCard.tsx:44-55 | "Salon", "Barbershop" and "Eatery" map to three distinct classes; exactly the other categories map to the gray default |
| `JsValues.Divide` | src/components/LoyaltyDashboard.tsx:126-127 | division by a non-zero threshold is exact; by zero it gives NaN, +Infinity or -Infinity according to the counter's sign |
| `JsValues.Min` | src/components/LoyaltyDashboard.tsx:149 | `Math.min(q, 100)` of a finite q is the smaller of q and 100; +Infinity gives 100, -Infinity and NaN are kept |
| `JsValues.PercentMonotone` | src/components/BusinessCard.tsx:29 | a percentage of a positive threshold grows with the counter |
| `JsValues.PercentReaches100` | src/components/LoyaltyDashboard.tsx:143-144 | a percentage of a positive threshold reaches 100 exactly when the counter reaches the threshold |
| `JsValues.ShowInt` | src/components/LoyaltyDashboard.tsx:130-131 | an interpolated integer prints as decimal digits without a leading zero, with a leading minus exactly for negatives, and reads back as the same number |
| `JsValues.ShowOptional` | src/components/BusinessCard.tsx:39 | an interpolated counter prints `undefined` exactly when it is missing; a present one prints as its digits, with a minus for a negative, and reads back as the same number |
| `CustomerLoyalty.CheckInShowsInQuery` | src/hooks/useCustomerLoyalty.ts:9-18 | after a successful check-in with a non-empty phone, the loyalty query for that phone lists the pair's record |
| `CustomerLoyalty.EmptyPhoneQueriesNothing` | src/hooks/useCustomerLoyalty.ts:9 | the empty-phone result is the same empty result whatever the tables hold |
| `CustomerLoyalty.Backend.CheckIn` | src/hooks/useCustomerLoyalty.ts:35-121 | the method's new tables and outcome are those of `CheckInSpec`, and it keeps the table invariant |
| `CustomerLoyalty.CheckInKeepsConsistent` | src/hooks/useCustomerLoyalty.ts:77-106 | every check-in, whichever call fails, keeps the invariant: keys match records, ids are distinct, counters are non-negative, totals are at least the current counters |
| `CustomerLoyalty.CheckInFindsOrCreatesCustomer` | src/hooks/useCustomerLoyalty.ts:37-55 | an existing customer is reused and no customer is added; otherwise exactly one customer with that phone and a fresh id is added |
| `CustomerLoyalty.CheckInAmounts` | src/hooks/useCustomerLoyalty.ts:74-75 | a successful check-in logs 1 visit always, and 50 points exactly for "Points-based" (0 otherwise) |
| `CustomerLoyalty.FirstCheckInCreatesRecord` | src/hooks/useCustomerLoyalty.ts:77-90 | a first check-in for the pair inserts one record whose current and total counters are the amounts, with a fresh id, leaving other records alone |
| `CustomerLoyalty.RepeatCheckInRaisesCounters` | src/hooks/useCustomerLoyalty.ts:93-106 | a repeat check-in raises all four counters by exactly the amounts; the record's id and keys and every other record are unchanged |
| `CustomerLoyalty.SuccessAppendsTransaction` | src/hooks/useCustomerLoyalty.ts:109-121 | success happens exactly when no reached call fails and the business exists; it appends exactly one "check-in" transaction with the customer, business and amounts; failure appends none |
| `CustomerLoyalty.CountersNeverDecrease` | src/hooks/useCustomerLoyalty.ts:77-106 | no record disappears or changes id, no counter decreases, and the businesses are unchanged |
| `CustomerLoyalty.MissingBusinessKeepsNewCustomer` | src/hooks/useCustomerLoyalty.ts:43-64 | a missing business fails the check-in with loyalty and transactions unchanged, while a customer created in the same call remains |
| `CustomerLoyalty.FailedTransactionKeepsAccrual` | src/hooks/useCustomerLoyalty.ts:93-119 | when the transaction insert fails, the loyalty write stays as on success, and no transaction records it |
| `CustomerLoyalty.FirstCheckInCreatesOneOfEach` | src/hooks/useCustomerLoyalty.ts:35-121 | the first check-in of a new phone adds exactly one customer, one loyalty record and one transaction |
| `CustomerLoyalty.Backend.InsertCustomerRow` | src/hooks/useCustomerLoyalty.ts:44-52 | the insert adds one customer under the phone with the next free id, and changes nothing else |
| `CustomerLoyalty.Backend.WriteLoyaltyRow` | src/hooks/useCustomerLoyalty.ts:77-106 | the write raises the pair's existing record, or inserts a new one holding the amounts, exactly as `AccrueAt` |
| `CustomerLoyalty.Backend.InsertTransactionRow` | src/hooks/useCustomerLoyalty.ts:109-117 | the insert appends exactly the given transaction and changes nothing else |
| `CustomerLoyalty.NextCheckIn` | src/hooks/useCustomerLoyalty.ts:77-106 | whether or not the pair had a record, one successful check-in leaves it one, with one more visit and one check-in's points more, and keeps the invariant |
| `CustomerLoyalty.CheckInsAccumulate` | src/hooks/useCustomerLoyalty.ts:77-106 | n successful check-ins in a row add n visits and n times one check-in's points to the pair's counters, keep the invariant and the customer's id |
| `CustomerLoyalty.RepeatedCheckIns` | src/hooks/useCustomerLoyalty.ts:77-103 | n check-ins from no record leave a record with n visits and n times the per-check-in points |
| `CheckInEffects.VisitRewardAfterCheckIns` | src/components/LoyaltyDashboard.tsx:25-26 | at a visit-based business, after n check-ins the dashboard lists the reward exactly when n reaches the threshold, and the badge agrees for a positive threshold |
| `CheckInEffects.PointsRewardAfterCheckIns` | src/components/LoyaltyDashboard.tsx:28 | at a points-based business, after n check-ins the row has 50 n points and n visits, and the reward is listed exactly when 50 n reaches the threshold |
| `CheckInEffects.SevenOfTenExample` | src/components/LoyaltyDashboard.tsx:125-127 | 7 of 10 visits shows 70% and is not ready; 10 of 10 shows 100% and is ready |
| `CheckInEffects.SuccessMessageVersusAccrual` | src/components/CustomerCheckIn.tsx:186-188 | the form promises 50 points for every type other than "Visit-based", although only "Points-based" earns points |

## Left out

- The Supabase client and react-query are foreign library calls. The tables are in-memory maps and a sequence. A failing call is reduced to "absent" versus "failed"; error codes, `.single()` on duplicate rows and cache invalidation (`src/hooks/useCustomerLoyalty.ts:123-125`) are not modelled.
- Concurrency: the race between two check-ins for the same pair is out of scope. The code does nothing to coordinate them.
- Floating point: percentages are exact rationals, so IEEE rounding and `Math.round` (`src/components/LoyaltyDashboard.tsx:152`) are not modelled. Counters and thresholds are integers; fractional values and NaN counters are not modelled.
- Rendering: the JSX, the Tailwind classes other than the category colours, icons and toast texts are left out. The 3-second reset timer of the form (`src/components/CustomerCheckIn.tsx:54-58`) is a UI timing detail and is left out too.
- Hard-coded content: the "Member Since" card and the "Recent Activity" list of the dashboard.
- `src/pages/Index.tsx`, which is tab state and mock data, is not part of this model.
- The `useBusinesses` query is left out. Its name ordering is done by the server. Only its record shape is used.
- Redemption: "Redeem Now" has no handler, and no counter is ever reset.
- Transaction ids and timestamps are generated by the database and are not modelled. Nor is the `{ success: true }` value.
- `enabled: !!phoneNumber` (`src/hooks/useCustomerLoyalty.ts:27`) stops the query from running at all. It is modelled by the same empty result as the short-circuit.
- CustomerLoyalty.LoyaltyOf: returns a set of loyalty records, not an ordered list joined with the business and customer rows. The filter on the embedded customer is taken to select the customer's own records. Under PostgREST's rules such a filter without an inner join only blanks the embedded customer of the other rows; the query's literal result is not modelled.
- JsValues.ShowInt: prints every integer in plain decimal notation. Exponent notation for magnitudes of 10^21 and above is not modelled.
