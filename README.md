# Merchant insights engine and chat formatter, modelled in Dafny

This project models the analytics core of a merchant-insights chatbot, together with two parts of its chat widget.

The analytics core lives in `insights.js`:

- `getTotalSales` sums `total_order_value` over a merchant's order records.
- `getSalesTrend` buckets `order_value` by day, by week or by month, sorts the buckets and rounds each to cents.
- `getTopItems` counts sales per item, ranks the items by count and cuts the list to a limit.
- `getOperationalInsights` averages three durations over the samples that fall inside their windows:
  - preparation: order to pickup, under 120 minutes;
  - delivery: pickup to delivery, under 120 minutes;
  - driver wait: arrival to pickup, under 60 minutes.
- `getCuisinePerformance` counts item sales per cuisine and gives each cuisine's share in percent.
- `generateMerchantInsights` does the following:
  - checks its parameters;
  - looks up the merchant;
  - runs the five analyses one after another inside a `try`;
  - assembles the report.

The two chat-widget parts live in `front/chatbot.js`:

- `formatMessage` turns a bot reply into HTML. It applies inline markup, splits the reply into lines and trims each one. It spaces out emoji. It groups list items into `<ol>`/`<ul>` and renders headings and paragraphs.
- `handleBotReply` keeps the conversation history. It appends the user's turn, and the assistant's turn when there is a reply, then keeps the last ten entries.

JavaScript values are modelled as follows:

- A number is `Num`: either `NaN` or a finite real.
- `parseFloat` is written out: leading white space, sign, digits, fraction and exponent.
- `x || 0` becomes `OrZero`. This sends both a missing value and `NaN` to 0.
- `toFixed(2)` is `Round2`: rounding to cents with halves rounded away from zero, applied to the exact value.
- An order collection is `Missing` (`undefined`/`null`), `NotArray` (any other truthy value) or an `Array` of rows. A row may be `null`. Reading `tx.merchant_id` on a `null` row throws a `TypeError`, and every analysis reads that field on every row, so one null row makes each analysis throw.
- Plain objects used as dictionaries are association lists that keep insertion order. Assigning to an existing key keeps its position.
- `Array.prototype.sort` is a stable insertion sort by a key and a strict order. Its result is proved sorted, a permutation and stable.
- Dates come from a `Calendar` parameter that gives `new Date(s).getTime()` and the local calendar fields of a time value. This is because time zones and the date parser are outside the model.

Each analysis has two parts:

- a function that states what it returns, or that it throws;
- where the source loops, a method with the source's loop, proved equal to that function.

Lemmas then state what the result means, in terms of the records.

The formatter is a method over the lines that carries the open list, proved equal to a right fold `Format`. It is checked in two ways:

- against an independent block structure (`Blocks`/`Render`), in which every list is closed with its own tag;
- against a model of the code as written. That model shows a mismatched closing tag (see Findings).

The chat history is a class `ChatSession` whose method `HandleBotReply` updates the `chatHistory` field. Lemmas follow it over any series of calls.

## Model

| member | source | states |
|---|---|---|
| Orders.Records | insights.js:11-12 | The rows can be read as records iff no row is `null`; the records are the rows in order |
| Orders.MerchantRecords | insights.js:12 | The merchant's records are exactly those of the input with its `merchant_id`, in the input order |
| Orders.MerchantRecordsAppend | insights.js:12 | Filtering two batches one after the other gives the concatenation of the filtered batches |
| JsValues.OrZero | insights.js:47 | `x \|\| 0`: a missing value becomes 0, a NaN value becomes 0, and a finite value is kept |
| JsValues.Round2 | insights.js:161 | `toFixed(2)` gives a whole number of cents within half a cent of the value, with its sign; a half cent rounds away from zero (the bound is strict on the side toward zero) |
| JsValues.Fixed2 | insights.js:57 | `parseFloat(x.toFixed(2))` is finite iff `x` is, and within half a cent of it |
| JsValues.SkipSpaces | front/chatbot.js:139 | Leading white space is dropped: the result is a suffix, all of the dropped characters are space and the first kept one is not |
| JsValues.DigitRun | insights.js:46 | The digit run at the head of a string: all of it digits and not followed by a digit |
| JsValues.ParseFloatNatToString | insights.js:46 | `parseFloat` of the decimal form of a natural number gives back the number |
| JsValues.ParseFloatOfDigits | insights.js:13 | `parseFloat` of a string of digits is the number those digits denote |
| JsValues.NatToString | insights.js:41 | The decimal form of a number is a non-empty string of digits that denotes it |
| JsValues.PadStart2 | insights.js:43 | `padStart(2, '0')` makes a string at least two long that ends with the original |
| Dates.WeekNumber | insights.js:40 | `ceil((date + day + 1) / 7)` is the least n with `date + day + 1 <= 7n`, and lies in 1..6 |
| Dates.MonthKeySuffix | insights.js:43 | A monthly key ends in `-` and two digits that denote the month (1..12) |
| AssocList.Lookup | insights.js:72 | A key has an entry iff it is one of the object's keys, and the entry is in the object |
| AssocList.Put | insights.js:73-77 | After `d[k] = v`, `k` maps to `v` and every other key keeps its entry |
| AssocList.PutKeys | insights.js:50 | `Object.entries` order: assigning an existing key keeps the key order, and a new key is appended |
| AssocList.UpsertLookup | insights.js:72-79 | Creating an entry if missing and then updating it changes only that key, and starts from the initial value when it was missing |
| AssocList.UpsertKeys | insights.js:72-79 | Create-then-update appends a new key at the end, and keeps keys unique |
| AssocList.PutUnique | insights.js:73 | Assignment keeps the keys of a dictionary unique |
| StableSort.SortBy | insights.js:51 | The sorted array is a permutation of the input |
| StableSort.SortBySorted | insights.js:84 | The sorted array is ordered by the comparator's key |
| StableSort.SortByStable | insights.js:84 | Entries with equal keys keep their relative order |
| StableSort.StrLtIsStrictTotalOrder | insights.js:55 | The string order used in place of `localeCompare` is irreflexive, transitive and total |
| StableSort.GreaterIsStrictTotalOrder | insights.js:84 | `b.count - a.count` orders counts by a strict total order, descending |
| StableSort.GreaterRealIsStrictTotalOrder | insights.js:196 | `b[1] - a[1]` orders cuisine counts by a strict total order, descending |
| StableSort.LessIsStrictTotalOrder | insights.js:53 | Ascending day values form a strict total order |
| Buckets.LookupAddTo | insights.js:47 | `m[k] = (m[k] \|\| 0) + v` changes bucket `k` only |
| Buckets.TallyStepLookup | insights.js:47 | One record moves its own bucket by its amount and leaves every other bucket alone |
| Buckets.TallyLookup | insights.js:23-48 | When every keyed record has a finite amount, a bucket exists iff some record has its key, and it holds the sum of those records' amounts |
| Buckets.TallyBucket | insights.js:23-48 | For any amounts, a bucket exists iff some record has its key. It is NaN when its last record had a NaN amount. Otherwise it is the sum of its records' amounts after the last NaN one, because `\|\| 0` restarts a NaN bucket at 0 |
| Buckets.NaNCut | insights.js:47 | The restart point is 0, or lies just past a record of the bucket whose amount is NaN |
| Buckets.NaNCutIsLast | insights.js:47 | No record of the bucket after the restart point has a NaN amount |
| Buckets.TallyUnique | insights.js:47 | The grouping has no duplicate keys |
| Buckets.SumValuesPermutation | insights.js:195-199 | `Object.values(...).reduce` gives the same sum whatever the order of the entries |
| Buckets.CountSum | insights.js:199 | Counting each keyed record once, the buckets add up to the number of keyed records |
| Buckets.TotalOfOnes | insights.js:187 | A bucket of counts holds the number of records with its key |
| Buckets.ValueWithinSum | insights.js:199-202 | A non-negative bucket is at most the sum of all buckets |
| Buckets.NonNegativeSum | insights.js:199 | Non-negative buckets have a finite, non-negative sum |
| Sales.TotalSales | insights.js:6-14 | A missing or non-array collection gives 0; an array throws iff it has a null row |
| Sales.SalesOfAppend | insights.js:11-13 | The total over two batches is the sum of their totals |
| Sales.SalesOfOne | insights.js:12-13 | One record adds its parsed `total_order_value` if it is the merchant's, else nothing |
| Sales.SumAmountsFinite | insights.js:13 | A sum is finite iff every amount is; with non-negative amounts it is non-negative |
| Sales.SalesOfFinite | insights.js:13 | The total is NaN iff one of the merchant's records has a value `parseFloat` rejects; non-negative amounts give a non-negative total |
| Sales.SalesTrendOf | insights.js:16-19 | A missing or non-array collection gives `[]`; an array throws iff it has a null row |
| Sales.SalesTrend | insights.js:16-58 | The method with the source's walk returns what `SalesTrendOf` states |
| Sales.ToPoints | insights.js:57 | Each bucket becomes one point with its key and its total rounded to cents, in the same order |
| Sales.BucketsSortedUnique | insights.js:50-56 | Sorting the buckets keeps exactly the same entries and no date is repeated |
| Sales.TrendPointsKeys | insights.js:23-57 | For any `order_value`s, there is a point for a key iff some counted record has that key, and no two points share a date |
| Sales.TrendPointsValues | insights.js:46-57 | For any `order_value`s, a point's total is NaN when the key's last record has a value `parseFloat` rejects. Otherwise it is the sum, rounded to cents, of the key's values after its last rejected one |
| Sales.TrendPointsTotals | insights.js:46-57 | When every counted record has a numeric `order_value`, a point's total is the sum of its key's values, rounded to cents |
| Sales.TrendPointsOrdered | insights.js:50-56 | Daily points are in ascending date order; weekly and monthly points are in ascending string order |
| Items.FirstSale | insights.js:72-78 | The first record selling an item exists iff the item was sold, and it is a sale of that item |
| Items.Slice | insights.js:85 | `slice(0, limit)` is a prefix of length `min(limit, n)`, or `n + limit` floored at 0 for a negative limit |
| Items.ToTopItems | insights.js:86-92 | Each ranked entry becomes one item in the same order |
| Items.TopItemsOf | insights.js:60-63 | A missing or non-array collection gives `[]`; an array throws iff it has a null row |
| Items.TopItems | insights.js:60-95 | The method with the source's walk returns what `TopItemsOf` states |
| Items.CountItems | insights.js:68-80 | The loop builds `itemFrequency` as the record-by-record fold |
| Items.CountOne | insights.js:71-79 | One iteration creates the entry if missing and then adds one to its count |
| Items.FrequencyStepLookup | insights.js:72-79 | One record of item `id` bumps that item's count, creating it from this record if missing |
| Items.FrequencyLookup | insights.js:65-80 | An item has an entry iff the merchant sold it; the count is the number of its sales, and the name and price come from its first sale |
| Items.FrequencyKeys | insights.js:65-80 | The keys are the sold item ids in order of first sale, each once |
| Items.SoldIdsExactly | insights.js:69 | An id is listed iff the merchant sold that item at least once |
| Items.RankedUnique | insights.js:83-84 | Ranking lists each sold item exactly once |
| Items.RankedEntry | insights.js:72-84 | Each ranked entry carries its item's true sale count and its first sale's name and price |
| Items.RankedCovers | insights.js:83-84 | Every sold item is ranked |
| Items.RankedTies | insights.js:84 | Items with equal counts stay in order of first sale |
| Items.TopItemsCorrect | insights.js:86-92 | Every listed item has its true count, first-sale name and price, and revenue `price * count` rounded to cents |
| Items.TopItemsCount | insights.js:85 | The list has `min(limit, sold items)` entries, or `sold + limit` floored at 0 for a negative limit |
| Items.TopItemsDistinct | insights.js:83-92 | No item is listed twice |
| Items.TopItemAt | insights.js:83-92 | The i-th listed item is the i-th ranked entry |
| Items.TopItemsBest | insights.js:83-85 | Counts are non-increasing, and no unlisted sold item outsells a listed one |
| Operations.OperationalOf | insights.js:98-106 | A missing or non-array collection gives zero metrics; an array throws iff it has a null row; `orderCount` is the number of the merchant's records |
| Operations.OperationalInsights | insights.js:98-165 | The method with the source's loop and counters returns what `OperationalOf` states |
| Operations.Durations | insights.js:121-156 | The nested checks yield the preparation, delivery and wait samples of one record |
| Operations.SampleNext | insights.js:134-155 | One more record adds its sample, if any, to the running total and count |
| Operations.SampleBounds | insights.js:134-155 | Windowed samples: count at most the records; total between 0 and window times count; no samples means total 0 |
| Operations.AverageWithin | insights.js:161-163 | Each average lies within its window, and is 0 with no samples |
| Operations.AverageBounded | insights.js:161 | A rounded quotient of a bounded total stays within the bound |
| Operations.QuotientWithin | insights.js:161 | `total / count` lies within the bound when the total does, scaled by the count |
| Operations.MetricsBounded | insights.js:159-164 | Prep and delivery averages lie in 0..120, wait in 0..60; sample counts never exceed the orders |
| Operations.NoOrderTimeNoSample | insights.js:128 | A record with no valid order time counts as an order but adds no sample |
| Cuisine.CuisineMapLookup | insights.js:173-178 | An item's cuisine is the tag of the last row with that item id, on any merchant's row |
| Cuisine.ToStats | insights.js:197-203 | Each cuisine bucket becomes one entry with its count and share, in order |
| Cuisine.CuisinePerformanceOf | insights.js:167-170 | A missing or non-array collection gives `[]`; an array throws iff it has a null row |
| Cuisine.CuisinePerformance | insights.js:167-205 | The method with the source's two walks returns what `CuisinePerformanceOf` states |
| Cuisine.BuildCuisineMap | insights.js:173-178 | The first walk builds the item-to-cuisine map |
| Cuisine.CountCuisines | insights.js:182-188 | The second walk counts the merchant's item sales per cuisine |
| Cuisine.ItemSalesZero | insights.js:184 | No sale is counted iff the merchant has no record with an item id |
| Cuisine.ReportEmpty | insights.js:191-193 | The report is empty iff the merchant has no record with an item id |
| Cuisine.SalesEntry | insights.js:186-187 | Each cuisine bucket holds the positive number of sales of that cuisine |
| Cuisine.SalesCounts | insights.js:187 | Every bucket holds a finite, non-negative count |
| Cuisine.ReportCounts | insights.js:182-197 | Each cuisine appears once with its true sale count, by descending count |
| Cuisine.ReportCovers | insights.js:183-197 | Every cuisine with a sale appears in the report |
| Cuisine.ReportTotal | insights.js:199 | The buckets add up to the number of the merchant's item sales |
| Cuisine.ShareAt | insights.js:202 | The i-th share is finite and between 0 and 100 |
| Cuisine.ReportShares | insights.js:198-203 | Every share is finite and between 0 and 100 |
| Cuisine.ReportPercentages | insights.js:198-203 | Every listed percentage is the cuisine's count divided by all the merchant's item sales, times 100, rounded to cents |
| Cuisine.PercentagesSumTo100 | insights.js:195-204 | When the merchant sold any item, the percentages add up to 100 within half a cent per listed cuisine |
| Cuisine.RoundedShares | insights.js:202 | Rounding each share to cents moves the sum of the shares by at most half a cent per entry |
| Cuisine.ShareWithin | insights.js:202 | A positive count of at most the total has a rounded share between 0 and 100 |
| MerchantInsights.FindIn | insights.js:220 | `find` returns `{}` or a record of the merchant, and can throw only a TypeError |
| MerchantInsights.OrderCountOf | insights.js:240 | `orderCount` throws iff the array has a null row |
| MerchantInsights.NullBeforeMatchThrows | insights.js:220 | A null row before the first match makes the lookup throw |
| MerchantInsights.ThrowHasNullRow | insights.js:220 | A throwing lookup met a null row before any match |
| MerchantInsights.FoundIsFirst | insights.js:220 | The record found is the first matching row and every row before it is an object; `{}` means no row matches |
| MerchantInsights.FindInThrows | insights.js:220 | The lookup throws iff a null row comes before the first match |
| MerchantInsights.CollectFacets | insights.js:222-243 | The `try` block: each facet keeps its computed value iff every step before it succeeded, and the default otherwise |
| MerchantInsights.GenerateMerchantInsights | insights.js:208-267 | The method returns what `InsightsOf` states |
| MerchantInsights.InsightsThrow | insights.js:208-220 | The call throws iff the parameters are missing, the merchants value is not an array, or a null merchant row comes before the match; the missing-parameters error is thrown iff `datasets` or `merchantId` is missing |
| MerchantInsights.FacetsAllOrNothing | insights.js:223-243 | Without a clean order array every facet keeps its default; with one every facet is computed |
| MerchantInsights.SummaryCounts | insights.js:240-257 | `totalOrders` equals the merchant's record count and `operations.orderCount`; `totalSales` is the rounded total; no orders means an average of 0, and otherwise the average is the total sales over the order count, rounded to cents |
| MerchantInsights.MerchantFallbacks | insights.js:220-252 | When `merchants` is absent, or is an array of records none of which is the merchant's, the call returns with the name `Unknown Merchant` and the join date and city `Unknown` |
| MerchantInsights.FindInNone | insights.js:220 | A lookup over records none of which is the merchant's gives `{}` |
| MerchantInsights.TopSellingItemIsBest | insights.js:235-257 | The top items are empty iff nothing was sold, and then `topSellingItem` is `N/A`; otherwise `topSellingItem` is the name of the first listed item, which no other item outsells (an item may itself be named `N/A`) |
| Text.Split | front/chatbot.js:134 | `split("\n")` gives at least one piece and no piece holds the separator |
| Text.JoinSplit | front/chatbot.js:134 | Joining the pieces with the separator gives back the message |
| Text.SplitJoin | front/chatbot.js:134 | Splitting a join of separator-free pieces gives back the pieces |
| Text.SplitFree | front/chatbot.js:134 | A string without the separator is one piece |
| Text.SplitPrefix | front/chatbot.js:134 | A separator-free head becomes the first piece |
| Text.TrimEnd | front/chatbot.js:139 | Trailing white space is dropped: a prefix whose last character is not space, and all dropped characters are space |
| Text.TrimSlice | front/chatbot.js:139 | `trim()` is the slice between leading and trailing white space, with no space at either end |
| Text.TrimIdempotent | front/chatbot.js:139 | Trimming twice is trimming once |
| Text.ReplaceAllAbsent | front/chatbot.js:147-153 | A string without the pattern's first character is unchanged |
| Text.ReplaceAllLonger | front/chatbot.js:147-153 | Adding a character after each occurrence never shortens the string |
| Text.ReplaceAllPrefix | front/chatbot.js:147-153 | Adding a character after each occurrence leaves the first `|pat|` characters alone |
| Text.ReplaceAllRoundTrip | front/chatbot.js:147-153 | Putting a character after every occurrence is undone by replacing the pattern-plus-character with the pattern |
| MessageFormat.EmojiSpacingRoundTrip | front/chatbot.js:147-153 | The emoji spacing loses nothing: removing the added spaces restores the line |
| MessageFormat.EmojiSpacingNoEmoji | front/chatbot.js:147-153 | A line without any of the six emoji is left as it is |
| MessageFormat.NumberedItem | front/chatbot.js:155-161 | `/^\d+\.\s+/` yields, on a match, a proper suffix of the line: the text of the item |
| MessageFormat.BulletItem | front/chatbot.js:162-168 | `/^[-*]\s+/` yields, on a match, a proper suffix of the line: the text of the item |
| MessageFormat.Utf16Length | front/chatbot.js:177 | `length` counts UTF-16 code units: between the number of characters and twice that |
| MessageFormat.ClassifyAll | front/chatbot.js:138-155 | Every line is classified on its own, in order |
| MessageFormat.FormatLine | front/chatbot.js:138-183 | One iteration of the corrected formatter: it emits what the step `Emit` emits, closing a list with its own tag, and moves to the same open-list state |
| MessageFormat.FormatMessage | front/chatbot.js:124-191 | The corrected formatter, with the source's loop, returns the fold `Format` and closes a list still open at the end with its own tag; a missing or empty message gives `""` |
| MessageFormat.FormatClosed | front/chatbot.js:138-190 | With no list open the formatter renders the message's blocks |
| MessageFormat.FormatOpen | front/chatbot.js:155-174 | With a list open the formatter renders the rest of that list, closes it with its own tag and renders the blocks after it |
| MessageFormat.ListContinues | front/chatbot.js:155-168 | A blank line or an item continues an open list |
| MessageFormat.ListEnds | front/chatbot.js:169-181 | A heading or paragraph closes an open list with the list's own tag |
| MessageFormat.FormatIsRender | front/chatbot.js:124-191 | The corrected formatter's output is the rendering of the message's blocks, every list closed with its own tag |
| MessageFormat.StepAsWritten | front/chatbot.js:138-183 | One iteration as written only appends to the HTML; `inList` is set by an item, cleared by a heading or paragraph, and kept by a blank line |
| MessageFormat.RunAsWritten | front/chatbot.js:136-190 | The loop as written and its final close keep the HTML built so far as a prefix |
| MessageFormat.AsWrittenWithoutBullets | front/chatbot.js:124-191 | For a message with no bullet item and no `<ul>` in the text of its lines, `FormatMessageAsWritten` equals the corrected `FormatMessageOf` |
| MessageFormat.RunAsWrittenAgrees | front/chatbot.js:136-190 | From HTML without `<ul>` and no bullet list open, the loop as written appends exactly what the corrected fold emits, as long as no line is a bullet item or holds `<ul>` |
| MessageFormat.PieceNoUl | front/chatbot.js:138-183 | Under those conditions one line adds no `<ul>`, opens no bullet list, and is what the as-written step appends |
| MessageFormat.NoUlJoin | front/chatbot.js:172 | Two pieces without `<ul>` joined at a tag boundary make no `<ul>` |
| MessageFormat.MixedListsAsWritten | front/chatbot.js:172 | As written, a numbered list after a closed bullet list is closed with `</ul>` |
| MessageFormat.MixedListsCorrected | front/chatbot.js:187 | The corrected formatter closes that numbered list with `</ol>` |
| MessageFormat.MismatchedCloseTag | front/chatbot.js:186-188 | The message `- a`, `x`, `1. b`: the code as written ends in `</ul>`, the corrected formatter ends in `</ol>` |
| ChatHistory.KeepLast | front/chatbot.js:211-213 | `slice(-10)` when longer than ten: the result is the last `min(n, length)` entries |
| ChatHistory.ChatSession.HandleBotReply | front/chatbot.js:194-223 | The history becomes the one `AfterReply` states: one turn appended on failure, or two appended and cut to ten on success |
| ChatHistory.ReplyKeepsRecent | front/chatbot.js:197-213 | After a reply the history has `min(n + 2, 10)` entries, a suffix of the old history plus both turns, ending with the user's turn and then the assistant's |
| ChatHistory.FailureKeepsEverything | front/chatbot.js:214-222 | After a failure the user's turn is appended, nothing is cut, and a full history grows past ten |
| ChatHistory.AfterReplySuffix | front/chatbot.js:197-213 | One call leaves a suffix of the old history followed by what it pushed |
| ChatHistory.ReplaySuffix | front/chatbot.js:194-223 | After any series of calls the history is the most recent part of all the turns pushed, never reordered |
| ChatHistory.ReplayBounded | front/chatbot.js:211-213 | After a series of calls whose last one got a reply, the history holds at most ten entries |

## Left out

- Reading files, `console` output, the DOM, `fetch`, `server.js` and `loadCSV.js` are not part of this model. Nor is `generateInsights`, which only reads a CSV and calls the composer.
- Dates: `new Date(...)`, `getTime()`, `toISOString()` and the local calendar getters are fields of a `Calendar` parameter. Time zones and the date parser are not modelled. The model assumes the calendar fields lie in their ranges.
- Floating point: numbers are exact reals. `toFixed(2)` is `Round2`, which rounds the exact value to cents with halves away from zero. The rounding of the binary double that `toFixed` sees is not modelled, so a value whose double lies just below a half cent may round the other way in JavaScript.
- JsValues.ParseFloat: `"Infinity"` and `"-Infinity"` give NaN in the model, where JavaScript gives ±Infinity, because `Num` has no infinities. A literal too large for a double, such as `1e400`, gives its exact value in the model, where JavaScript gives Infinity.
- `localeCompare` is modelled as code-point string order. Locale collation is not modelled.
- Object key order: string keys that look like array indices are listed first by JavaScript objects. Keys inherited from `Object.prototype` (such as `constructor`) are also not modelled. Dictionaries keep plain insertion order.
- Cuisine.Percentage: a count over a NaN or zero total (`Infinity`) is not reachable, because every bucket holds a positive count. The model returns NaN there rather than `Infinity`.
- MessageFormat.FormatMessage: this is the corrected formatter, which closes every list with the tag that opened it. The source chooses `</ul>` whenever `<ul>` appears anywhere in the HTML so far (see Findings). That code is modelled as written by `FormatMessageAsWritten`, and `AsWrittenWithoutBullets` shows the two agree when no bullet item or `<ul>` text comes first. The inline bold, italic and currency regexes and `toUpperCase` are parameters (`TextOps`), because regular-expression replacement with captures and Unicode case mapping are outside the model. The lemmas hold for any such functions.
- ChatHistory.ChatSession.HandleBotReply: the `await` is modelled as one atomic step whose outcome is a parameter. Interleaving of two overlapping calls on the shared history is not modelled. A reply that is not a string is not modelled either.
- MerchantInsights.GenerateMerchantInsights: the `items`, `transactionData` and `transactionItems` datasets are only checked for a warning, so they are not modelled. A `datasets` value that is truthy but not an object is not modelled either.
- Orders: a row is either `null` or an object of string fields. Rows that are other primitives, and fields that are not strings, are not modelled.

The code departs from the documented behaviour in two places. The model follows the code:

- A `total_order_value` or `order_value` that `parseFloat` rejects makes the sum NaN. `|| 0` replaces only a missing or empty value.
- The composer can throw for reasons other than missing parameters. `merchants?.find(...)` runs outside the `try`, so a merchants value that is not an array throws a TypeError. So does a `null` merchant row before the match. See `MerchantInsights.InsightsThrow`.

In a sales trend, `(trendMap[k] || 0)` resets a bucket that has become NaN when the next value is added. The model keeps this behaviour, and `Buckets.TallyBucket` and `Sales.TrendPointsValues` state it.

## Findings

| source | as written | input that shows it | evidently intended | confidence | as-written member | corrected member |
|---|---|---|---|---|---|---|
| front/chatbot.js:172 | The closing tag of an open list is chosen by whether the HTML built so far contains `<ul>` anywhere, not by the kind of the open list | The message `- a`, `x`, `1. b`: the numbered list opened by `1. b` is closed with `</ul>` because the earlier bullet list left a `<ul>` in the output | Close each list with the tag that matches how it was opened (`</ol>` for a numbered list, `</ul>` for a bullet list) | not executed | MessageFormat.MismatchedCloseTag | MessageFormat.FormatIsRender |
