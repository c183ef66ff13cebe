# mellat core, modelled in Dafny

This project models four pieces of the mellat back office (a sports club's
athlete and fee register and a cargo company's print pages):

- **The athlete and fee store.** The two Sequelize models (`Athletes`, `Fees`)
  and the eleven Express handlers of the two controllers. The database is a
  class `Store.Database` holding both tables as maps from the auto-increment
  id to the row, with their id counters. Its invariant is what the storage
  engine and the model hook enforce: the unique card number (`nic_number`),
  the foreign key from a fee to its athlete with `ON DELETE CASCADE`, and
  `remained == total - received` on every fee. Amounts are integer cents and
  dates are day numbers. Each handler is a method that returns the HTTP
  status it answers with, and its contract states the order of the checks
  (validation, then existence, then the write) and the exact new state. The
  list handlers are pure functions of the tables (`FeeQueries`): filter,
  join with the athlete summary, and sort by `createdAt`, newest first.
- **The seed scripts.** `generateathleterecords.js` generates random fee
  records for the existing athletes and inserts them in batches of 50.
  `generateOrders.js` generates 100 random cargo orders with their digital
  and offset print items. Every `Math.random()` call is a parameter: the
  exact fraction `u / 2^53` (`Draws.Unit`). The generators are functions of
  their draws, and the loops are methods proved against those functions. The
  proofs give the stated ranges, totals, remainders, the batch coverage and
  the linking of item rows to their order.
- **The JWT middleware.** `authenticateJWT` is modelled as a decision
  function over the configured secret, the `Authorization` header and the
  verdict of `jwt.verify`, which is a function parameter (an oracle). The
  decision is also modelled as a method on a request object that sets the
  response or `req.user` and counts the calls to `next`. The header is split
  exactly as `split(" ")` does.
- **The printable shipping bill.** `PrintShippingBill` is modelled as a
  function from `isOpen`, the shipment record and the text of
  `Math.random().toString(36)` to what the bill shows:
  - nothing at all while the bill is closed or without data;
  - phone numbers with ASCII digits rewritten as Persian digits, and "-" for
    missing fields;
  - missing amounts shown as 0;
  - the pack list in one table, or beyond seven items in two tables with
    continuous numbering;
  - the remainder red exactly when positive;
  - the bill number.

Modules: `Wrappers` (Option, Patch) and `Http` (statuses) in `wrappers.dfy`;
`Decimals`; `Draws`; `Ordering` (key enumeration and the newest-first sort);
`AthletesModel`; `FeesModel`; `FeeQueries`; `Store`; `FeeSeed`;
`OrderSeed`; `AuthenticateJwt`; `ShippingBill`.

The code is followed where it differs from what its comments or the
surrounding design suggest:
- `generateFeePeriod` passes 2023 as the day range of `generateRandomDate`,
  so a start date lies anywhere within 2023 days of today, not within 15.
- `getFeeById` cannot succeed as written (finding 1 below).

## Model

| member | source | states |
|---|---|---|
| AthletesModel.WriteKeepsNicUnique | backend/Models/Athletes.js:27-31 | Writing a row whose card number no other row holds keeps `nic_number` unique across the table. |
| AthletesModel.Patched | backend/Controllers/AthletesController.js:118 | `athlete.update(body)` replaces exactly the supplied columns: each of the seven columns (names, residences, card number, document and photo) takes the supplied value when one is sent and keeps the old one otherwise. `createdAt` is kept. Only values that change are written: `updatedAt` becomes the clock when some column's value changes, and a body that changes no value (an empty one, or one repeating the stored values) leaves the row as it was, `updatedAt` included. |
| FeesModel.Patched | backend/Models/Fees.js:49-52 | Each of `startDate`, `endDate`, `total`, `received` and `athleteId` takes the supplied value when one is sent and keeps the old one otherwise. The updated fee always satisfies `remained == total - received`. `createdAt` is kept. `updatedAt` becomes the clock when some column's value changes, and a body that changes no value leaves the row as it was, `updatedAt` included. `remained` is unchanged when neither amount is supplied. |
| FeesModel.SuppliedRemainedIsIgnored | backend/Models/Fees.js:49-52 | A `remained` sent in an update body, whether left out, null or a value, has no effect on the stored row: the hook overrides it. |
| FeesModel.FeeInstance.Build | backend/Controllers/FeesController.js:149 | A loaded instance holds exactly the stored row's columns. |
| FeesModel.FeeInstance.Assign | backend/Controllers/FeesController.js:157 | `set(body)` assigns exactly the supplied columns, a supplied `remained` included, and leaves every other column as it was. |
| FeesModel.FeeInstance.BeforeValidate | backend/Models/Fees.js:49-52 | The hook sets `remained` to `total - received` in place and changes no other column. |
| FeesModel.NewFee | backend/Controllers/FeesController.js:66-72 | The created row stores the body's dates, total and athlete, the received amount or 0, and `remained == total - received`, so `remained == total` when nothing was received. No bound ties `received` to `total`, so `remained` may be negative. Both timestamps are the clock. |
| FeesModel.ReceivedOrZero | backend/Controllers/FeesController.js:70 | The received amount defaults to 0: a missing or zero amount becomes 0, any other amount is kept. |
| Ordering.IdsIn | backend/Controllers/FeesController.js:13 | The ids of a table enumerated over `[lo, hi)`: exactly the keys in that range, in strictly increasing order. |
| Ordering.SortNewestFirst | backend/Controllers/FeesController.js:26 | `order: [["createdAt", "DESC"]]`: the result is ordered by non-increasing key and is a permutation (same multiset) of the input. |
| Ordering.InsertNewestFirst | backend/Controllers/FeesController.js:26 | Inserting into a newest-first list keeps it newest-first and adds exactly that element. |
| Ordering.PermutationKeepsElements | backend/Controllers/FeesController.js:26 | The sorted list holds the same elements as the unsorted list. |
| Ordering.PermutationKeepsDistinct | backend/Controllers/FeesController.js:26 | Sorting a list without repetitions gives a list without repetitions. |
| Ordering.DistinctIdsCount | backend/Controllers/FeesController.js:92-101 | A list of distinct ids has as many entries as its set of elements. |
| FeeQueries.SummaryOf | backend/Controllers/FeesController.js:19-25 | The joined athlete summary (`id`, `full_name`, `nic_number`) is present exactly when the athlete exists. It then carries that athlete's values. |
| FeeQueries.RowsWhere | backend/Controllers/FeesController.js:13-18 | The filtered rows are exactly the joined rows of the listed fees that pass the `where` clause. |
| FeeQueries.RowsWhereDistinct | backend/Controllers/FeesController.js:13-18 | Over ascending ids no row is listed twice. |
| FeeQueries.FeesWhere | backend/Controllers/FeesController.js:13-27 | A fee's joined row is listed exactly when it passes the filter. Every listed row is a stored fee joined with its athlete. The list is newest first and lists no row twice. |
| FeeQueries.FeesInRange | backend/Controllers/FeesController.js:13-27 | The report lists a fee exactly when `startDate <= endDate of the fee <= endDate` (inclusive), joined with its athlete, newest first, each fee once. It is empty when the start lies after the end. |
| FeeQueries.DistinctRowsHaveDistinctIds | backend/Controllers/FeesController.js:13-27 | Joined rows listed once each carry distinct fee ids. |
| FeeQueries.AllFees | backend/Controllers/FeesController.js:92-101 | `getAllFees` lists every fee exactly once (the list is as long as the table), joined with its athlete, newest first. |
| FeeQueries.DistinctRowsCoverFees | backend/Controllers/FeesController.js:92-101 | A duplicate-free list of exactly the table's joined rows has one entry per fee. |
| FeeQueries.AthleteRowsOf | backend/Controllers/AthletesController.js:68-70 | One row per listed id, in the order of the ids, each with that athlete's record. |
| FeeQueries.AthleteRowsOfFacts | backend/Controllers/AthletesController.js:68-70 | Over ascending ids every listed athlete appears once and nothing else does. |
| FeeQueries.AthletesByKey | backend/Controllers/AthletesController.js:68-70 | Every athlete appears, only stored athletes appear, and none appears twice. |
| FeeQueries.AllAthletes | backend/Controllers/AthletesController.js:66-72 | `getAllAthletes` lists every athlete exactly once, with its stored record, newest first, unpaginated. |
| FeeQueries.AthleteById | backend/Controllers/AthletesController.js:87-95 | The athlete is found exactly when the id is stored, and it is that athlete. |
| FeeQueries.FeeByIdAsWritten | backend/Controllers/FeesController.js:116-140 | As written, `getFeeById` answers 500 without a row for every id. |
| FeeQueries.FeeById | backend/Controllers/FeesController.js:116-134 | As intended: 404 for an unknown id, otherwise 200 with the fee joined with its athlete. |
| FeeQueries.StoredFeeIsNotServed | backend/Controllers/FeesController.js:121 | For a stored fee, the as-written handler answers 500 where the intended one answers 200 with the row. |
| Store.Cascade | backend/Models/Fees.js:34-43 | `ON DELETE CASCADE`: the surviving fees are exactly those of other athletes, unchanged. |
| Store.CascadeKeepsConsistent | backend/Models/Fees.js:34-43 | Deleting an athlete together with its fees keeps the invariant: ids below the counters, unique card numbers, derived remainders, and every fee naming an existing athlete. No fee of the deleted athlete survives. |
| Store.JoinedRowsCarryAthlete | backend/Models/Fees.js:34-43 | Under the foreign key every joined fee row carries the summary of the athlete it names. |
| Store.Database.constructor | backend/Models/Fees.js:5-55 | The empty tables satisfy the invariant. |
| Store.Database.GetFeesInRange | backend/Controllers/FeesController.js:5-36 | 400 with no rows when either bound is missing. Otherwise 200 with the range report of the current tables. Nothing changes. |
| Store.Database.CreateFee | backend/Controllers/FeesController.js:42-84 | 400 and no change when a start date, end date, non-zero total or non-zero athlete id is missing. Then 404 and no change when the athlete does not exist. Otherwise 201 with the created row and its new id: exactly one new fee under that fresh id, built as `NewFee` says, no other row changed, the fee counter advanced by one and the athlete counter kept, invariant kept. |
| Store.Database.GetAllFees | backend/Controllers/FeesController.js:90-110 | 200 with every fee once, newest first. Under the foreign key each row carries its athlete's summary. |
| Store.Database.GetFeeById | backend/Controllers/FeesController.js:116-141 | The intended lookup (see `FeeQueries.FeeById`). |
| Store.Database.UpdateFee | backend/Controllers/FeesController.js:147-169 | 404 and no change for an unknown id. 500 and no change when the body nulls a NOT NULL column, or when it names a missing athlete (foreign key). Otherwise 200: only that fee changes, to `FeesModel.Patched`, both id counters are kept, and the invariant is kept. |
| Store.Database.DeleteFee | backend/Controllers/FeesController.js:175-196 | 404 and no change for an unknown id. Otherwise 200, exactly that fee removed, all other rows and both id counters unchanged. |
| Store.Database.CreateAthlete | backend/Controllers/AthletesController.js:6-59 | 400 and no change unless the five text fields are non-empty and both files were uploaded. 409 and no change when the card number is taken. Otherwise 201: one new athlete under a fresh id, storing the uploaded file names, fees unchanged, the athlete counter advanced by one and the fee counter kept, invariant kept. |
| Store.Database.GetAllAthletes | backend/Controllers/AthletesController.js:66-79 | 200 with every athlete once, newest first. |
| Store.Database.GetAthleteById | backend/Controllers/AthletesController.js:85-102 | 404 for an unknown id, otherwise 200 with that athlete. |
| Store.Database.UpdateAthlete | backend/Controllers/AthletesController.js:108-136 | 404 and no change for an unknown id. 500 and no change when the body nulls a column. 409 and no change when a supplied card number is held by another athlete. Otherwise 200: only that athlete changes, to `AthletesModel.Patched`, fees and both id counters unchanged, invariant kept. |
| Store.Database.DeleteAthlete | backend/Controllers/AthletesController.js:142-163 | 404 and no change for an unknown id. Otherwise 200: the athlete is removed and the fees become exactly `Cascade` of the old fees. Both id counters are kept. |
| Draws.Scaled | backend/generateathleterecords.js:38 | `Math.floor(Math.random() * n)` lies in `[0, n)` for positive `n`. |
| Draws.Random | backend/generateOrders.js:4 | `random(min, max)` is an integer of `[min, max]`. |
| Decimals.Decimal | backend/generateOrders.js:88 | `${n}`: decimal digits without a leading zero. |
| Decimals.DecimalRoundTrip | backend/generateOrders.js:88 | Reading the digits of `${n}` back gives `n`. |
| FeeSeed.RandomDate | backend/generateathleterecords.js:7-29 | The drawn day lies within `range` days before or after today. |
| FeeSeed.FeePeriod | backend/generateathleterecords.js:33-50 | The end date lies 15 to 45 days, inclusive, after the start date. The start lies within 2023 days of today. |
| FeeSeed.CumulativeValues | backend/generateathleterecords.js:54-72 | The running probability sums are 70, 85 and 95 percent, and all four kinds together reach 100. |
| FeeSeed.KindIndex | backend/generateathleterecords.js:61-72 | The chosen kind is the first whose cumulative probability reaches the draw, so each kind is chosen for exactly its share of draws. |
| FeeSeed.RoundedAmount | backend/generateathleterecords.js:75-82 | The rounded amount is a multiple of 100. For a kind with hundred-aligned bounds it stays within `[min, max]`. |
| FeeSeed.FeeAmountOf | backend/generateathleterecords.js:53-84 | The amount has one of the four listed kinds, lies in that kind's range and in `[1000, 100000]`, and is a multiple of 100. |
| FeeSeed.GenerateFeeAmount | backend/generateathleterecords.js:53-84 | The accumulating loop returns exactly `FeeAmountOf` of its draws. |
| FeeSeed.FirstReachingKind | backend/generateathleterecords.js:66-72 | The kind at which the loop stops is the kind `KindIndex` names. |
| FeeSeed.StatusOf | backend/generateathleterecords.js:89-114 | Paid exactly below 0.3, unpaid exactly from 0.7 on, partial in between. |
| FeeSeed.PartialReceived | backend/generateathleterecords.js:100-101 | A partly paid amount is a multiple of 100 strictly between 0 and the total (for totals of at least 200). |
| FeeSeed.PaymentOf | backend/generateathleterecords.js:87-115 | Paid: `received == total`, `remained == 0`. Unpaid: `received == 0`, `remained == total`. Partial: the drawn share. Always `remained == total - received`. |
| FeeSeed.StatusMatchesAmounts | backend/generateathleterecords.js:249-256 | The status of a record is recovered from its amounts: paid iff nothing remains, unpaid iff nothing was received, partial iff both are positive. |
| FeeSeed.FeeRecordOf | backend/generateathleterecords.js:118-135 | A record carries the athlete id and `remained == total - received`. Its period spans 15 to 45 days. Its total is a multiple of 100 in `[1000, 100000]`, with `0 <= received <= total`. Both timestamps are now. |
| FeeSeed.AsFee | backend/generateathleterecords.js:206 | The stored row of a record keeps its amounts (in cents) and its athlete. |
| FeeSeed.SeedRecordSatisfiesHook | backend/generateathleterecords.js:118-135 | A generated record already satisfies the rule the `beforeValidate` hook enforces. |
| FeeSeed.RecordCount | backend/generateathleterecords.js:140 | The drawn count lies in `[minRecords, maxRecords]`. |
| FeeSeed.RecordsOf | backend/generateathleterecords.js:142-145 | `n` records, all for the given athlete and satisfying the hook's rule. |
| FeeSeed.RecordAt | backend/generateathleterecords.js:142-145 | The i-th record is built from the i-th draws. |
| FeeSeed.AthleteFeeRecords | backend/generateathleterecords.js:138-148 | Between `minRecords` and `maxRecords` records (exactly the drawn count), all carrying the athlete id. |
| FeeSeed.GenerateAthleteFeeRecords | backend/generateathleterecords.js:138-148 | The pushing loop returns exactly `AthleteFeeRecords`. |
| FeeSeed.FeeRecordsUpTo | backend/generateathleterecords.js:151-167 | For `n` athletes, between `n` and `12 n` records. |
| FeeSeed.RecordsBelongToAthletes | backend/generateathleterecords.js:151-167 | Every generated record belongs to one of the athletes and satisfies the hook's rule. |
| FeeSeed.FeeRecordsUpToStep | backend/generateathleterecords.js:156-159 | One more athlete appends exactly that athlete's records. |
| FeeSeed.GenerateMultipleFeeRecords | backend/generateathleterecords.js:151-167 | The loop returns the concatenation, in athlete order, of each athlete's records. |
| FeeSeed.BatchesCover | backend/generateathleterecords.js:199-204 | The 50-record slices, concatenated, give back every record exactly once, in order. Each holds 1 to 50 records, and all but the last hold 50. |
| FeeSeed.KeptFromBatches | backend/generateathleterecords.js:205-212 | Only records of the batches are written, and no more of them than there are. |
| FeeSeed.AllAcceptedWritesAll | backend/generateathleterecords.js:205-212 | When every `bulkCreate` succeeds, every record is written once, in order. |
| FeeSeed.NoneAcceptedWritesNothing | backend/generateathleterecords.js:205-212 | When every `bulkCreate` fails, nothing is written. |
| FeeSeed.InsertInBatches | backend/generateathleterecords.js:199-213 | The insert loop writes exactly the records of the accepted batches. `insertedCount` is their number, and `insertedCount + failedCount` is the number of records. |
| FeeSeed.InsertFeeRecords | backend/generateathleterecords.js:170-219 | No athletes: nothing is generated or written. Otherwise the records of the first 100 athletes are generated (between 1 and 12 each) and inserted in batches. The counts add up to the records processed, and every written record belongs to an athlete and satisfies the hook's rule. |
| FeeSeed.SamePrefixSameRecords | backend/generateathleterecords.js:181-184 | The records for the first athletes depend only on those athletes, so reading at most 100 ids loses nothing. |
| OrderSeed.Phone | backend/generateOrders.js:75 | Ten digits: "07", then the digit drawn in `[0, 9]`, then the seven-digit number drawn in `[1000000, 9999999]`. |
| OrderSeed.CustomerOf | backend/generateOrders.js:78-80 | The name is a listed first name, a space and a listed last name. The phone is `Phone` of the draws. |
| OrderSeed.DigitalItemOf | backend/generateOrders.js:84-96 | A digital item at index i is named "دیجیتال " plus `i + 1`. Price is in `[100, 500]` and quantity in `[1, 5]`. `money` is their product, in `[100, 2500]`. Height, area and weight lie in their ranges. |
| OrderSeed.OffsetItemOf | backend/generateOrders.js:100-108 | An offset item at index i is named "آفست " plus `i + 1`. Price is in `[200, 600]` and quantity in `[1, 3]`. `money` is their product, in `[200, 1800]`. |
| OrderSeed.DigitalItems | backend/generateOrders.js:84 | `Array.from({ length: n })` gives `n` items. |
| OrderSeed.DigitalItemAt | backend/generateOrders.js:84-96 | The i-th digital item is built from the i-th draws and numbered `i + 1`. |
| OrderSeed.OffsetItems | backend/generateOrders.js:100 | `n` offset items. |
| OrderSeed.OffsetItemAt | backend/generateOrders.js:100-108 | The i-th offset item is built from the i-th draws and numbered `i + 1`. |
| OrderSeed.DigitalMoneyBounds | backend/generateOrders.js:111 | The digital total of `n` items lies in `[100 n, 2500 n]`. |
| OrderSeed.OffsetMoneyBounds | backend/generateOrders.js:112 | The offset total of `n` items lies in `[200 n, 1800 n]`. |
| OrderSeed.OrderDataOf | backend/generateOrders.js:83-99 | There are 1 to 3 digital items and 1 to 2 offset items. |
| OrderSeed.OrderDataFacts | backend/generateOrders.js:111-116 | The two totals are the sums of their items' `money`. `total` is their sum, in `[300, 11100]`, and `digitalId == total`. `recip` and `remained == total - recip` both lie in `[0, total]`. |
| OrderSeed.DigitalRows | backend/generateOrders.js:163-165 | One digital row per item, in order, each carrying the order's id. |
| OrderSeed.OffsetRows | backend/generateOrders.js:168-170 | One offset row per item, in order, each carrying the order's id. |
| OrderSeed.SeededOrders | backend/generateOrders.js:136-173 | One order row per iteration. |
| OrderSeed.SeededOrderAt | backend/generateOrders.js:136-160 | The k-th order gets id `firstId + k` and the data and delivery flag of iteration `k + 1`. |
| OrderSeed.SeededItemsPointAtSeededOrders | backend/generateOrders.js:163-170 | Every item row of the seeded orders carries the id of one of the orders seeded with it. |
| OrderSeed.SeededOrderFromDraws | backend/generateOrders.js:136-160 | The k-th seeded order has id `firstId + k` and is `generateOrderData` of its own draws. It is delivered iff its draw exceeds 0.5, its total lies in `[300, 11100]` and its remainder lies in `[0, total]`. |
| OrderSeed.OrderTables.constructor | backend/generateOrders.js:134 | Empty tables satisfy the linking invariant. |
| OrderSeed.OrderTables.CreateOrder | backend/generateOrders.js:150-160 | `Order.create` appends exactly one order under the next id, returns that id and leaves the item tables alone. |
| OrderSeed.OrderTables.SeedOrder | backend/generateOrders.js:150-170 | One iteration appends the order, then exactly its digital rows and its offset rows, all carrying the new order's id. Every item row still points at an existing order. |
| OrderSeed.OrderTables.SeedGenerated | backend/generateOrders.js:136-173 | The loop appends exactly the 100 seeded orders and their item rows, and uses 100 ids. |
| OrderSeed.OrderTables.SeedOrders | backend/generateOrders.js:132-181 | `seedOrders` appends the 100 orders generated from their own draws, with their item rows. |
| AuthenticateJwt.FirstSpace | backend/middleware/authenticateJWT.js:20 | The position of a space with no space before it. |
| AuthenticateJwt.FirstSpaceAfter | backend/middleware/authenticateJWT.js:20 | A space ending a space-free prefix is the first space. |
| AuthenticateJwt.Split | backend/middleware/authenticateJWT.js:21 | `split(" ")` gives at least one piece and no piece contains a space. |
| AuthenticateJwt.JoinSplit | backend/middleware/authenticateJWT.js:21 | Joining the pieces of `split(" ")` with single spaces gives the header back. |
| AuthenticateJwt.SplitJoin | backend/middleware/authenticateJWT.js:21 | Splitting the join of space-free pieces gives the pieces back. |
| AuthenticateJwt.SplitAtSpace | backend/middleware/authenticateJWT.js:21 | A space-free prefix and the following space split off as the first piece. |
| AuthenticateJwt.ExtractTokenShape | backend/middleware/authenticateJWT.js:20-22 | With a space the token is the space-free text right after the first space, up to the next space or the end. |
| AuthenticateJwt.FirstPiece | backend/middleware/authenticateJWT.js:21 | The first piece is the prefix up to the first space or the end. |
| AuthenticateJwt.BearerToken | backend/middleware/authenticateJWT.js:19-22 | "Bearer <token>" yields the token. |
| AuthenticateJwt.DirectToken | backend/middleware/authenticateJWT.js:19-22 | A header without a space is the token itself. |
| AuthenticateJwt.Decide | backend/middleware/authenticateJWT.js:5-32 | A response is only ever 500, 401 or 403. |
| AuthenticateJwt.MissingSecretFirst | backend/middleware/authenticateJWT.js:7-10 | Without a secret the answer is 500 "Server configuration error", whatever the header and the verifier. |
| AuthenticateJwt.MissingHeaderUnauthorized | backend/middleware/authenticateJWT.js:15-17 | With a secret and no (or an empty) header the answer is 401, whatever the verifier. |
| AuthenticateJwt.ForbiddenIffRejected | backend/middleware/authenticateJWT.js:25-28 | 403 exactly when secret and header are present and the verifier rejects the extracted token. |
| AuthenticateJwt.EmptyTokenForbidden | backend/middleware/authenticateJWT.js:20-28 | A header that ends at its first space, such as "Bearer ", yields the empty token. When the verifier rejects the empty token, as `jwt.verify` does, the answer is 403. |
| AuthenticateJwt.NextIffAccepted | backend/middleware/authenticateJWT.js:25-31 | `next` runs exactly when secret and header are present and the verifier accepts the extracted token. The user is then the decoded payload. |
| AuthenticateJwt.Exchange.constructor | backend/middleware/authenticateJWT.js:13 | A fresh request: no user, no response, `next` not called. |
| AuthenticateJwt.Exchange.Authenticate | backend/middleware/authenticateJWT.js:5-32 | Either the response is set as `Decide` says and `req.user` and `next` are untouched, or `req.user` is the payload, `next` is called once and nothing is sent. |
| ShippingBill.PersianDigit | front/src/dashboard/pages/PrintShippingBill.jsx:77 | The character at index d of "۰۱۲۳۴۵۶۷۸۹" is the Persian digit of value d. |
| ShippingBill.ToPersianDigits | front/src/dashboard/pages/PrintShippingBill.jsx:77 | For the sender's phone (and the receiver's at line 100), each ASCII digit becomes the Persian digit of the same value, any other character is kept, and the length is preserved. |
| ShippingBill.FromPersianDigits | front/src/dashboard/pages/PrintShippingBill.jsx:77 | The inverse rewriting, Persian digits back to ASCII digits of the same value. |
| ShippingBill.NoAsciiDigitsLeft | front/src/dashboard/pages/PrintShippingBill.jsx:77 | No ASCII digit remains after the rewriting, and rewriting again changes nothing. |
| ShippingBill.PersianDigitsRoundTrip | front/src/dashboard/pages/PrintShippingBill.jsx:77 | For text without Persian digits, reading the digits back gives the original. |
| ShippingBill.PhoneShown | front/src/dashboard/pages/PrintShippingBill.jsx:77 | A missing or empty phone number (sender here, receiver at line 100) is shown as "-". Any other is shown rewritten into Persian digits. |
| ShippingBill.TextOrDash | front/src/dashboard/pages/PrintShippingBill.jsx:84 | A missing or empty e-mail (here and at line 107) or country (line 109) is shown as "-", any other as it is. |
| ShippingBill.NumberOrZero | front/src/dashboard/pages/PrintShippingBill.jsx:11-18 | The fallback to 0 in `formatNumber` and `formatCurrency`: a missing figure is 0, any other is itself. |
| ShippingBill.TableRows | front/src/dashboard/pages/PrintShippingBill.jsx:274-280 | One row per item, in order, the k-th numbered `start + k` and striped on odd positions. |
| ShippingBill.ItemsOf | front/src/dashboard/pages/PrintShippingBill.jsx:274 | The items the rows show, one per row, in order. |
| ShippingBill.TablesOf | front/src/dashboard/pages/PrintShippingBill.jsx:165-228 | Two tables exactly when there are more than 7 items. The first then holds 7 rows and the second the rest. |
| ShippingBill.PackTablesAsWritten | front/src/dashboard/pages/PrintShippingBill.jsx:165-274 | As written, the bill fails exactly when there is no pack list. Otherwise it shows `TablesOf` the list. |
| ShippingBill.PackTables | front/src/dashboard/pages/PrintShippingBill.jsx:165-274 | As intended, a missing pack list is an empty single table. Otherwise the tables are `TablesOf` the list. |
| ShippingBill.MissingPackListThrows | front/src/dashboard/pages/PrintShippingBill.jsx:274 | Without a pack list the bill as written does not render, where an empty table is intended. |
| ShippingBill.PackRowsListEveryItem | front/src/dashboard/pages/PrintShippingBill.jsx:181-297 | In either layout the rows list every item once, in order, numbered 1, 2, 3, ... continuously (index + 1 in the first or only table, index + 8 in the second). Missing qty, weight and value are shown as 0. The value is labelled "$" exactly when the list is split. |
| ShippingBill.SecondTableStartsAtEight | front/src/dashboard/pages/PrintShippingBill.jsx:228-234 | In the split layout item 8 opens the second table, numbered 8, and its striping starts over. |
| ShippingBill.RemainTone | front/src/dashboard/pages/PrintShippingBill.jsx:323-327 | The remainder is red exactly when it is present and positive, otherwise green. |
| ShippingBill.Upper | front/src/dashboard/pages/PrintShippingBill.jsx:24 | `toUpperCase` on base-36 digits: a lower-case letter becomes the same upper-case letter, others are kept. |
| ShippingBill.RandomCode | front/src/dashboard/pages/PrintShippingBill.jsx:24 | `substr(2, 6).toUpperCase()`: up to six digits or capitals (six when the text is long enough), the upper-cased characters after "0.". |
| ShippingBill.BillNumber | front/src/dashboard/pages/PrintShippingBill.jsx:22-24 | The id's decimal digits when the id is truthy, otherwise the random code. Either way only digits and capitals. |
| ShippingBill.NumberOfCode | front/src/dashboard/pages/PrintShippingBill.jsx:16-18 | `Number(...)` of a bill number made of digits and capitals. A digit string is its decimal value. A "0X", "0B" or "0O" prefix followed by at least one digit of base 16, 2 or 8 is that hexadecimal, binary or octal value, and NaN when any later character is not such a digit. Digits, an "E" and digits are mantissa times 10 to the exponent. Every other string is NaN, in particular any string with a letter other than "E" and no radix prefix. A value from 2^1024 - 2^970 on is `Infinity`. |
| ShippingBill.ToDouble | front/src/dashboard/pages/PrintShippingBill.jsx:17 | The double of an exact value is `Infinity` exactly from 2^1024 - 2^970 on (round to nearest past the largest finite double), and never NaN. |
| ShippingBill.SafeIntegerIsFinite | front/src/dashboard/pages/PrintShippingBill.jsx:17 | Every integer below 2^53 is a finite double of the same value. |
| ShippingBill.ExponentAt | front/src/dashboard/pages/PrintShippingBill.jsx:16-18 | The position of the first "E": an "E" with no "E" before it, or none when there is no "E". |
| ShippingBill.BillNumberShownAsWritten | front/src/dashboard/pages/PrintShippingBill.jsx:58 | As written, a truthy id is shown as the double of its value, which is the id itself below 2^53. Without a truthy id the random code is shown as `NumberOfCode` reads it: a number, `Infinity` or NaN, never the code's own characters. |
| ShippingBill.BillNumberShown | front/src/dashboard/pages/PrintShippingBill.jsx:22-58 | As intended, the shown number has the bill number's length, and reading its Persian digits back gives the bill number. |
| ShippingBill.RandomBillNumberIsLost | front/src/dashboard/pages/PrintShippingBill.jsx:58 | For a bill without an id and the random text "0.4fzyo82mvyr", the code is "4FZYO8". The as-written bill shows NaN, the intended one shows the code. |
| ShippingBill.HexBillNumberIsRead | front/src/dashboard/pages/PrintShippingBill.jsx:58 | For a bill without an id and the random text "0.0x1f2a9k", the code is "0X1F2A", and the as-written bill shows the hexadecimal value 7978 instead of the code. |
| ShippingBill.HexCodeValue | front/src/dashboard/pages/PrintShippingBill.jsx:17 | `Number("0X1F2A")` is the finite value 7978. |
| ShippingBill.ViewOf | front/src/dashboard/pages/PrintShippingBill.jsx:72-85 | A party is shown with its name and address, its phone as `PhoneShown` and its e-mail as `TextOrDash`. |
| ShippingBill.Render | front/src/dashboard/pages/PrintShippingBill.jsx:9-327 | Nothing is rendered exactly when the bill is closed or there is no data. Otherwise the bill shows the intended pack tables and bill number, both parties as `ViewOf`, the receiver's country or "-", and the weight, pieces, price per kilo, goods value, total, amount received and remainder, each 0 when missing. The remainder is red exactly when it is positive. |

## Left out

**Store and controllers**
- Search, pagination and "active today": the routers import `searchAthletes`, `getActiveFeesToday` and `searchFeesByAthlete`, but the controllers do not define them. The list handlers take no page or limit.
- The database connection, `sync`, the Express server and route wiring, and the duplicate association declarations (backend/Controllers/FeesController.js:198-206): these are plumbing. The foreign key and its cascade appear only as the store invariant and `Store.Cascade`.
- File uploads: the upload middleware is disk I/O. An uploaded file is its stored file name, passed in (`AthletesModel.Upload`).
- The 500 answers of the handlers' catch blocks for database failures: the model's database does not fail. The failures the handlers can actually meet are modelled: a NOT NULL violation, a foreign key violation on update, and the unique index.
- `DECIMAL(10,2)` precision: amounts are unbounded integer cents, so an amount beyond the column's ten digits is not refused as MySQL would refuse it.
- Request values are typed (numbers and day numbers). A numeric field sent as a JSON string (where "0" is truthy), or a date string that `new Date` cannot parse, is not modelled.
- Store.Database.UpdateFee: assumes `fee.update(body)` writes the `remained` the hook derived. Whether Sequelize's field list for the update includes a hook-changed column depends on the ORM. The ORM is not part of this model.
- Store.Database.CreateAthlete: a card number is taken only when an athlete holds exactly the same string. The unique index on `nic_number` compares under the database's collation, and the connection sets none. MySQL's and MariaDB's default collations ignore letter case (and some ignore trailing spaces), so with "AB-12" stored the database also refuses "ab-12" with 409. Collations are server configuration and are not modelled.
- Store.Database.UpdateAthlete: the same collation gap applies to the 409 test on a supplied card number.
- Text columns are `STRING`, that is `VARCHAR(255)`: text is unbounded in the model, so a value longer than 255 characters, which MySQL refuses or truncates depending on its SQL mode, is not refused.
- FeesModel.Patched: a body whose only differing value is a supplied `remained` leaves the row, `updatedAt` included, as it was, because the hook writes back the derived value. Whether the ORM still writes `updatedAt` in that case depends on its change tracking, which is not part of this model.
- Ties in `createdAt`: the database's order among equal timestamps is not modelled. The contracts state only the newest-first order and the permutation.

**Seed scripts**
- Floating point: a draw is the exact fraction `u / 2^53`. Products and sums are evaluated exactly, and the probabilities 0.7, 0.15, 0.1 and 0.05 are taken as exact percents. Double rounding near a threshold is not modelled.
- Dates and time zones: dates are day numbers and the clock is a parameter. FeeSeed.FeePeriod assumes a non-negative UTC offset (Kabul), where `new Date("YYYY-MM-DD")` followed by local `setDate` gives exactly the drawn 15 to 45 days. The date formatting with `padStart` is not modelled.
- `generateFeeStatistics`, `deleteAllFeeRecords`, `generateSampleFeeRecords` and the command-line dispatch: DB aggregates, float formatting and console output.
- Console output and `process.exit` in both scripts.
- OrderSeed.OrderTables.CreateOrder: backend/Models/Orders.js is not part of this model, so an order row keeps the whole generated record rather than only the columns passed to `Order.create`.
- The seed scripts' catch blocks: the model's database calls do not throw, except the per-batch `bulkCreate` outcome, which is a parameter.

**Middleware**
- JWT cryptography: `jwt.verify` is an oracle over the token and the secret.
- The catch block of `authenticateJWT` (backend/middleware/authenticateJWT.js:33-35): no modelled step throws.
- The `console.error` line.

**Shipping bill**
- `toLocaleString("fa-IR")` digit grouping and numerals, and the Jalali date: library formatting. The bill carries the integers before formatting, except the bill number, whose characters are shown with Persian digits.
- Render: a record without `Sender` or `Receiver` makes the component throw on `data.Sender.name`. In the model both parties are always present.
- Figures are integers. A non-numeric string that `Number` turns into NaN is not modelled.
- NumberOfCode: a finite result keeps the exact value. A double rounds values above 2^53 (such as the code "9E99") to 53 significant bits, and that rounding is not modelled. The overflow to `Infinity` is modelled.
- The print and close buttons, the `Regulation` section, and the page layout and colours other than the remainder's.

## Findings

| source | as written | input that shows it | evidently intended | confidence | as-written member | corrected member |
|---|---|---|---|---|---|---|
| backend/Controllers/FeesController.js:121 | `getFeeById` includes `model: Athlete`, a name the controller never imports (it imports `Athletes`), so building the query options throws a ReferenceError. The catch block then answers 500 for every id. | GET /api/fees/1 with fee 1 stored | 404 for an unknown id, otherwise 200 with the fee and its athlete summary | not executed | FeeQueries.FeeByIdAsWritten | FeeQueries.FeeById |
| front/src/dashboard/pages/PrintShippingBill.jsx:274 | The split is guarded by `data.packList && data.packList.length > 7`, but the single-table branch calls `data.packList.map` unguarded. A record without a pack list throws a TypeError, and the bill does not render. | open bill with data lacking `packList` | an empty table | not executed | ShippingBill.PackTablesAsWritten | ShippingBill.PackTables |
| front/src/dashboard/pages/PrintShippingBill.jsx:58 | The random bill number is shown through `formatNumber`, that is `Number(...)`. A code that is no numeric literal, such as any code with a letter other than "E" and no "0X", "0B" or "0O" prefix, is shown as NaN. A code that is one is shown as a number, not as the code ("0X1F2A" as 7978). | data without `id`, `Math.random().toString(36)` = "0.4fzyo82mvyr" | the code "4FZYO8" itself, its digits in Persian | not executed | ShippingBill.BillNumberShownAsWritten | ShippingBill.BillNumberShown |

The lemmas `FeeQueries.StoredFeeIsNotServed`, `ShippingBill.MissingPackListThrows` and `ShippingBill.RandomBillNumberIsLost` exhibit each discrepancy on the input named in its row. `ShippingBill.HexBillNumberIsRead` shows the third on a code that `Number` reads as hexadecimal. The rest of the model uses the corrected members.
