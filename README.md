# excelbot, modelled in Dafny

excelbot is a Telegram bot that records currency-exchange deals in a Google
sheet. A user picks the currency received and the amount, then the currency
given and its amount. The bot converts both amounts to EUR at the day's rate
and suggests a commission. The user then enters a commission, an expense
percentage and a comment, and the bot appends one row to the sheet.

This project models three parts of that program:

- **Rate resolution** (`app/rates.py`), in `rates.dfy`, module `Rates`.
  - Currency codes are normalised.
  - A retry list of date keys is built: `latest` for today, then the day, then the five days before it.
  - Rates are cached by `(code, date key)` in a process-wide cache.
  - Four providers are tried in a fixed order: Frankfurter, exchangerate.host, Fawaz and Floatrates.
  - A hit is pinned under both the tried key and the requested key.
  - The converted amount is rounded half-up to cents.

  The HTTP providers are one oracle `fetch: Request -> Option<real>`. A `Request` names the provider, the code and the date key it is sent. The cache is a class `RateCache` holding a `map` that the resolver updates in place. `GetRateToEur` is the source's loop. It is proved equal to the pure specification `Resolve`. The lemmas about `Resolve` state the caching and ordering rules: which retry key decides, which rate comes back, which requests are made and which cache entries are written.
- **Session store** (`app/storage.py`), in `storage.dfy`, module `SessionStorage`. It is a class whose `sessions` map is updated by `Start`, `SetStep`, `SetData` and `Clear` and read by `GetStep` and `GetData`. Each method states the whole new map, and that the other users' sessions are unchanged.
- **Deal-form value rules** (`app/bot.py`, `app/constants.py`), in `bot.dfy`, module `DealForm`. This covers:
  - the duplicate-free append of message ids to clean up;
  - command matching;
  - the currency callback payloads;
  - the commission and expense answers;
  - the suggested commission and the net profit;
  - the 10-cell sheet row;
  - the two handlers that convert the stored amounts.

Helper modules:
- `Wrappers` provides `Option`.
- `Text` covers Python's `str.strip` (with the `str.isspace` character set), ASCII `str.upper` and character replacement.
- `Decimals` covers rounding half-up and half-even to 0.01, and the `str` text of a 2-place Decimal with a reader for it.

Representation:
- Rates are exact `real`s.
- Amounts quantized to 0.01 are `int`s counting hundredths.
- Days are `int`s, and a date key is `Latest` or `Day(d)`.
- `today` is a parameter.
- Four things stay abstract and are passed as parameters: `Decimal(text)` as a `Parse` function, `str.lower`, `str` of a parsed amount, and the `strftime` text of today's date.

## Model

| member | source | states |
|---|---|---|
| Decimals.RoundHalfUp | app/rates.py:182 | the integer is within one half of x, and ties go away from zero |
| Decimals.RoundHalfEven | app/bot.py:237 | the integer is within one half of x, and ties go to the even neighbour |
| Decimals.QuantizeHalfUp | app/rates.py:182 | `quantize(Decimal("0.01"), ROUND_HALF_UP)`: hundredths within half a cent, ties away from zero |
| Decimals.QuantizeHalfEven | app/bot.py:237 | `quantize(Decimal("0.01"))` with the default half-even rounding: hundredths within half a cent, ties to even |
| Decimals.QuantizeHalfEvenBounds | app/bot.py:233-237 | quantizing a value between two whole-cent bounds stays between them, and a whole-cent value is kept exactly |
| Decimals.QuantizeHalfUpExact | app/rates.py:182 | a value that already has two places is left unchanged |
| Decimals.HalfUpAgainstHalfEven | app/rates.py:182 | 10.005 becomes 10.01 half-up (the rates rule) but 10.00 half-even (the bot rule) |
| Decimals.Digits | app/bot.py:237 | the decimal digits of a natural number, without leading zeros |
| Decimals.DigitsRoundTrip | app/bot.py:237 | reading the digits back gives the number |
| Decimals.Unsigned | app/bot.py:237 | the unsigned text of a number of hundredths is digits, '.', and two digits |
| Decimals.UnsignedRoundTrip | app/bot.py:237 | reading the unsigned text back gives the number of hundredths |
| Decimals.FormatHundredths | app/bot.py:237 | `str` of a 2-place Decimal is `[-]digits.dd` |
| Decimals.FormatRoundTrip | app/bot.py:237 | the text reads back as the same number of hundredths, so different values give different texts |
| Text.IsSpaceExamples | app/rates.py:24 | the whitespace `str.strip` removes includes space, tab, line breaks, no-break and ideographic spaces, and excludes letters, digits, '-' and the zero-width space |
| Text.StripLeft | app/rates.py:24 | `str.lstrip` gives a text no longer than the input |
| Text.StripLeftShape | app/rates.py:24 | `str.lstrip` keeps a suffix that does not start with whitespace, and drops only whitespace |
| Text.StripRight | app/rates.py:24 | `str.rstrip` gives a text no longer than the input |
| Text.StripRightShape | app/rates.py:24 | `str.rstrip` keeps a prefix that does not end with whitespace, and drops only whitespace |
| Text.Strip | app/rates.py:24 | `str.strip` gives a text no longer than the input |
| Text.StripTrimmed | app/rates.py:24 | the result of `str.strip` has no whitespace at either end |
| Text.StripExactly | app/rates.py:24 | whitespace around a trimmed text is removed and nothing else is |
| Text.StripPadded | app/rates.py:24 | extra whitespace around any text does not change its stripped form |
| Text.StripIdempotent | app/rates.py:24 | stripping twice is stripping once |
| Text.Upper | app/rates.py:24 | ASCII upper-casing keeps the length |
| Text.UpperAt | app/rates.py:24 | `str.upper` on ASCII maps each character on its own, upper-casing letters |
| Text.ReplaceChar | app/bot.py:228 | `str.replace` of one character: same length, each `from` becomes `to` and every other character is kept in place |
| Text.ReplaceCharConcat | app/bot.py:228 | replacing works piece by piece over a concatenation, and a lone `from` becomes `to` |
| Text.ReplaceCharFacts | app/bot.py:228 | no `from` is left when `to` differs, and a text without `from` is unchanged |
| Text.RemoveChar | app/bot.py:228 | `str.replace(ch, "")`: no `ch` is left, every other character keeps its count, and a text without `ch` is unchanged |
| Text.RemoveCharConcat | app/bot.py:228 | deleting works piece by piece over a concatenation, so the characters that stay keep their order |
| Text.UpperFacts | app/rates.py:24 | upper-casing leaves no ASCII lower-case letter, is the identity on text without one, and keeps a trimmed text trimmed |
| Rates.NormalizeCode | app/rates.py:23-27 | the normal code is never "USDT" |
| Rates.NormalForm | app/rates.py:23-27 | the normal code is trimmed and has no lower-case ASCII letter |
| Rates.NormalizeTrimmed | app/rates.py:23-27 | for a trimmed code the result is its upper-case form, with "USDT" mapped to "USD" |
| Rates.NormalizeIdempotent | app/rates.py:23-27 | normalising a normal code changes nothing |
| Rates.NormalizeIgnoresPadding | app/rates.py:23-27 | whitespace around a code does not change its normal form |
| Rates.NormalizeExamples | app/rates.py:23-27 | "usdt", " USD " and "USD" all give the cache code "USD"; " eur" gives "EUR" |
| Rates.RetryKeys | app/rates.py:112-118 | the retry list starts with `latest` exactly when the day is today, then lists the day and the five days before it in order; its length is 7 for today and 6 otherwise |
| Rates.BuildTries | app/rates.py:112-118 | the append loop builds exactly the retry list |
| Rates.Query | app/rates.py:133-171 | Frankfurter and Fawaz are asked for the key itself; exchangerate.host is asked for today instead of `latest` and for the day otherwise; Floatrates is always asked `latest` |
| Rates.Requests | app/rates.py:133-171 | the four provider requests for one date key, all for the normal code: Frankfurter first, then exchangerate.host, Fawaz and Floatrates |
| Rates.Chain | app/rates.py:133-171 | the providers are asked in order up to the first hit; every one asked before it missed; a miss means all four were asked and all missed |
| Rates.ChainFirstHit | app/rates.py:133-171 | when the first hit is provider i, the calls are exactly the first i+1 requests and the rate is that provider's answer |
| Rates.AllRequests | app/rates.py:126-171 | a walk over n date keys that misses everywhere makes 4n requests |
| Rates.Walk | app/rates.py:126-173 | when the walk over the retry list fails, the cache is unchanged and every request was made; on success the requested key holds the rate, and the cache is the old one with some key of the list and the requested key set to it |
| Rates.Resolve | app/rates.py:100-173 | when no rate is found, the cache is unchanged |
| Rates.ResolveShortCircuits | app/rates.py:105-124 | an empty normal code gives None, and "EUR" gives exactly 1, neither reading, writing or calling anything; a cached requested key is returned with no provider call and the cache unchanged |
| Rates.ResolveByNormalForm | app/rates.py:105 | two codes with the same normal form resolve identically |
| Rates.ResolveAlias | app/rates.py:25-26 | "USDT" resolves exactly as "usd": same rate, same cache, same calls |
| Rates.ResolveSuccess | app/rates.py:126-171 | on success, one key of the retry list and the requested key map to the rate, and no other cache entry changes |
| Rates.ResolveRepeat | app/rates.py:120-124 | once a call succeeded, the same call again returns the same rate with no provider call, whatever the providers now answer |
| Rates.WalkMissStep | app/rates.py:126-171 | a key that is not cached and misses at all four providers only adds its four requests before the rest of the walk |
| Rates.WalkMissPrefix | app/rates.py:126-171 | missing keys are skipped one after another: the walk is their requests followed by the walk of the remaining keys |
| Rates.ResolveExhausted | app/rates.py:173 | when every provider misses on every retry key, the result is None, the cache is unchanged and all requests were made in order |
| Rates.TryProviders | app/rates.py:133-171 | the four provider blocks for one key: the calls and hit are the chain's; a hit writes the tried and the requested key, a miss writes nothing |
| Rates.GetRateToEur | app/rates.py:100-173 | the imperative resolver over the cache object returns the rate, new cache and calls of `Resolve` |
| Rates.EurAmount | app/rates.py:176-183 | None exactly when the rate is None; otherwise amount × rate rounded half-up to cents |
| Rates.EurAmountRoundsHalfUp | app/rates.py:182 | 10.005 EUR becomes 10.01, and -10.005 becomes -10.01 |
| Rates.ConvertToEur | app/rates.py:176-186 | the converted amount, the cache after the lookup and the calls are those of `Resolve` followed by `EurAmount` |
| Rates.WalkCachedAt | app/rates.py:126-131 | when the keys before key j were passed over and key j is cached, its rate is returned and pinned under the requested key, with only the earlier keys' requests made |
| Rates.WalkAnsweredAt | app/rates.py:126-171 | when the keys before key j were passed over and a provider answers for key j, that answer is returned and stored under key j and the requested key; the calls are the earlier keys' requests and key j's chain up to the answer |
| Rates.ResolveCachedRetry | app/rates.py:120-131 | for an uncached requested day, the first cached key of the retry window gives the rate, copied under the requested day, after every request of the keys before it |
| Rates.ResolveAnsweredRetry | app/rates.py:120-171 | for an uncached requested day, the first key a provider answers gives that rate, stored under that key and the requested day, after every request of the keys before it |
| Rates.ResolveStaleLatest | app/rates.py:115-131 | a `latest` rate cached on an earlier day answers today's request with no call and is pinned under today, since the cache is never evicted |
| Rates.AllMissMisses | app/rates.py:133-171 | a key on which all four providers miss adds no cache entry |
| Rates.ResolveFirstHit | app/rates.py:133-145 | when Frankfurter answers for the requested day on an empty key, that rate is returned after one call and stored under the day |
| Rates.ConvertUsdtExample | app/rates.py:25-26 | converting 100 USDT on a past day where Frankfurter quotes USD at 0.92 asks only Frankfurter for USD, caches 0.92 under (USD, day) and gives 92.00 EUR |
| Rates.ResolveShifted | app/rates.py:126-171 | when the day and the day before miss everywhere and Frankfurter answers for two days back, that rate is returned and stored under both that key and the requested day |
| Rates.ResolveShiftedPinned | app/rates.py:120-131 | after such a shifted hit, later requests for the day and for two days back return the pinned rate with no call |
| Rates.RateCache.constructor | app/rates.py:15 | the cache starts empty |
| SessionStorage.NewSession | app/storage.py:14 | a fresh session has no step and empty data |
| SessionStorage.Storage.constructor | app/storage.py:9-11 | the store starts with no session |
| SessionStorage.Storage.Start | app/storage.py:13-14 | the user's session becomes step None with empty data, replacing any old one; other users are untouched |
| SessionStorage.Storage.SetStep | app/storage.py:17-19 | an existing session gets the new step and keeps its data; for an unknown user nothing changes; other users are untouched |
| SessionStorage.Storage.GetStep | app/storage.py:22-23 | None for an unknown user, else the session's step |
| SessionStorage.Storage.SetData | app/storage.py:25-28 | a missing session is first created with step None; afterwards the data is the old data with the key set to the value, and the step is kept; other users are untouched |
| SessionStorage.Storage.GetData | app/storage.py:31-32 | an empty map for an unknown user, else the session's data |
| SessionStorage.Storage.Clear | app/storage.py:34-36 | the session is removed, so step and data read as None and empty; for an unknown user nothing changes; other users are untouched |
| DealForm.AppendStep | app/bot.py:32-33 | one turn keeps the bucket as a prefix, adds at most one id, and holds exactly the old ids plus the given id when it is non-zero |
| DealForm.AppendAll | app/bot.py:30-33 | the new bucket starts with the old one, and holds exactly the old ids and the non-zero given ids |
| DealForm.AppendCleanup | app/bot.py:28-34 | the append loop computes `AppendAll` |
| DealForm.AppendIsBucketPlusFresh | app/bot.py:31-33 | the new bucket is the old one followed by each non-zero id not already present and not seen earlier, in input order |
| DealForm.FreshIsNew | app/bot.py:31-33 | the appended ids are distinct, non-zero and not in the old bucket |
| DealForm.AppendKeepsDistinct | app/bot.py:31-33 | a bucket without duplicates stays without duplicates |
| DealForm.AppendKnown | app/bot.py:31-33 | ids that are zero or already present change nothing |
| DealForm.AppendIdempotent | app/bot.py:28-34 | appending the same ids twice equals appending them once |
| DealForm.Match | app/bot.py:76-77 | a missing text matches as the empty text would |
| DealForm.MatchPadded | app/bot.py:76-77 | a padded text matches exactly when the lower-case form of its trimmed core is a variant |
| DealForm.FirstIndex | app/bot.py:149 | the position of the first separator, or none when there is none |
| DealForm.CallbackValue | app/bot.py:149 | the value is the text after the first ':'; there is none exactly when the data has no ':' |
| DealForm.Payload | app/constants.py:53-55 | the button data is the prefix, ':' and the currency |
| DealForm.CallbackRoundTrip | app/constants.py:53-55 | the value of `prefix:T` is T for a ':'-free prefix, even when T holds ':' |
| DealForm.CurrenciesListed | app/constants.py:4-6 | the keyboard offers twelve distinct codes, EUR first, USDT and USD among them |
| DealForm.CurrencyPayloads | app/constants.py:51-59 | every currency button of both keyboards hands back its currency |
| DealForm.CallbackAfterPrefix | app/bot.py:147-149 | data accepted by the `cur_in:` or `cur_out:` filter yields the rest of the data |
| DealForm.Clamp | app/bot.py:233-236 | the clamped value lies in [0, hi]; a negative value gives 0, a value above hi gives hi, and a value already inside is kept |
| DealForm.PercentText | app/bot.py:228 | the parsed text has no '%' and no ','; a text without '%' has each ',' read as '.'; a text without either is unchanged |
| DealForm.PercentTextDropsPercent | app/bot.py:228 | a '%' is dropped wherever it stands, so a text is read as its '%'-free form with each ',' as '.' |
| DealForm.PercentTextExample | app/bot.py:228 | "5,5%" is read as "5.5" |
| DealForm.PercentHundredths | app/bot.py:228-237 | a percentage in [0, hi] in hundredths; 0 when the text is not a number or is negative; hi when it is above; otherwise within half a hundredth, with ties going to the even hundredth |
| DealForm.PercentTieExample | app/bot.py:237 | an answer of 1.005 is stored as 1.00, where the half-up rounding of the rates would give 1.01 |
| DealForm.CommissionText | app/bot.py:221-237 | an empty or dash answer with a non-empty suggestion gives the suggestion verbatim; any other answer gives the text of the parsed answer clamped to [0, 10] and quantized half-even |
| DealForm.CommissionDashPadded | app/bot.py:221-226 | a dash or blank answer with surrounding whitespace still keeps the suggestion |
| DealForm.ExpensesText | app/bot.py:245-258 | an empty or dash answer gives "0"; any other answer gives the text of the parsed answer clamped to [0, 100] and quantized half-even |
| DealForm.Lookup | app/bot.py:274-277 | `data.get(key, default)`: the stored value when the key is present, otherwise the default |
| DealForm.LookupOr | app/bot.py:289-298 | `data.get(key) or default`: a present non-empty value is returned, otherwise the default |
| DealForm.ExpensesCell | app/bot.py:298 | the expenses text of the row is trimmed; it is the stripped stored text when that is not empty, and "0" when nothing or the empty text is stored |
| DealForm.StoredExpenses | app/bot.py:298-306 | the expense percentage deducted lies in [0, 100]; it is 0 when the stored text is not a number or is negative, 100 when it is above 100, and the parsed value otherwise |
| DealForm.FormatPlain | app/bot.py:258 | a 2-place text has no surrounding whitespace and no ',' |
| DealForm.PlainUnchanged | app/bot.py:298-300 | such a text passes the strip and the ',' replacement unchanged |
| DealForm.StoredPlainReadBack | app/bot.py:298-306 | a stored trimmed text without ',' is shown as it is and deducted as the value the reader gives it |
| DealForm.ExpensesReadBack | app/bot.py:246-258 | for a Decimal reader that reads "0" and the 2-place texts correctly, what the expenses step stores is what the comment step shows and deducts |
| DealForm.SuggestedCommission | app/bot.py:195-198 | a suggestion exists exactly when eur_in is known and eur_out is known and positive, and it is (eur_in - eur_out) / eur_out × 100 to within half a hundredth, with ties going to the even hundredth |
| DealForm.SuggestedSign | app/bot.py:196-198 | the suggestion has the sign of eur_in - eur_out, and a break-even deal suggests 0 |
| DealForm.NetProfit | app/bot.py:284-310 | a net profit exists exactly when both amounts are known, and it is (eur_in - eur_out) × (1 - e/100) to within half a cent, with ties going to the even cent |
| DealForm.ScaleBounds | app/bot.py:310 | scaling by a factor in [0, 1] moves a value towards 0 without passing it |
| DealForm.NearestInt | app/bot.py:310 | an integer within one half of a value between two integers lies between them |
| DealForm.NetBounds | app/bot.py:303-310 | the integer nearest to g × f, for f in [0, 1], lies between 0 and g; it is g for f = 1 and 0 for f = 0 |
| DealForm.NetProfitBounds | app/bot.py:303-310 | with e in [0, 100], the net profit lies between 0 and the gross profit; e = 0 gives the gross and e = 100 gives 0 |
| DealForm.UserName | app/bot.py:267 | the user name has no surrounding whitespace; it is the stripped full name, else the stripped username, else "Неизвестный" |
| DealForm.CommentText | app/bot.py:268-270 | the comment is stripped and never a lone "-": a lone "-" gives the empty text, and any other text gives its stripped form |
| DealForm.AmountText | app/bot.py:276-277 | the stored amount ("0" when absent) with each ',' read as '.' and every other character kept in place, so no ',' is left |
| DealForm.CommissionCell | app/bot.py:289-295 | a stored non-blank commission is used; otherwise the suggestion is recomputed from the converted amounts, or the cell is empty |
| DealForm.ProfitCell | app/bot.py:322 | "н/д" exactly when there is no net profit; otherwise the text reads back as the net profit |
| DealForm.DealRow | app/bot.py:312-323 | ten cells: user, currency in, str of amount in, currency out, str of amount out, commission, expenses text, comment, date, and the profit cell of the net profit after the stored expenses |
| DealForm.DealRowProfit | app/bot.py:303-323 | the profit cell is "н/д" exactly when an amount is unknown, and otherwise reads back as the net profit |
| DealForm.ColumnsInOrder | app/constants.py:9-20 | `COLUMNS` numbers exactly the ten column names, each by its position, so cell i of the row is column i |
| DealForm.SuggestForDeal | app/bot.py:185-200 | when a stored amount is not a number there is no suggestion and the cache is unchanged; otherwise both amounts are converted at today's rate, in order, and the stored suggestion is the text of `SuggestedCommission` |
| DealForm.RowForDeal | app/bot.py:264-323 | when a stored amount is not a number there is no row and the cache is unchanged; otherwise both amounts are converted, in order, and the row is `DealRow` of the results |

## Left out

- HTTP, JSON and timeout handling in the four providers (`httpx`, `raise_for_status`, `r.json()`, the URL templates) is not modelled. The oracle `fetch` returns a rate or None for each request, so any provider error is a miss, as the `except` clauses make it.
- Rates.Query: Fawaz and Floatrates put the code in lower case in their URL. The model keeps the normal code in the `Request`, which does not change which provider is asked or in which order.
- Rates.Query: Floatrates ignores the date. The model sends it `Latest` for every retry key, so its answer cannot depend on the day.
- Logging through loguru is not modelled.
- Rates.Fetch: the providers are one fixed function, so the same request always gets the same answer. A transient miss followed by a hit for the same request cannot be represented. This shows where one request recurs: Floatrates is asked `latest` for every retry key, exchangerate.host is asked for today under both `latest` and today's date, and the two conversions of a handler share one `fetch`.
- The Decimal context precision of 28 digits is not modelled. Neither is `Decimal(str(float))` on JSON numbers. Rates are exact rationals.
- Real calendar arithmetic and `isoformat` are not modelled. Days are integers, "day - i" is integer subtraction, and `today` is one parameter, although the source reads the clock twice (app/rates.py:113-114) and each handler reads it again.
- Async execution is not modelled, so there are no cache races between concurrent requests: calls are sequential.
- Rates.NormalizeCode: upper-cases ASCII letters only, not the full Unicode `str.upper`. A code of `None` (`code or ""`) is not modelled either, since every caller passes a string.
- Decimals.FormatHundredths and the quantized values: Decimal's signed zero is not modelled. A result that rounds to zero from below is `-0.00` in Python, and so is a `-0` answer that passes the clamp. The model writes both as `0.00`.
- `Decimal("NaN")` and infinities are not modelled. The parse parameter yields rationals only. A NaN answer makes the clamp comparison raise in the source.
- DealForm.Match: `str.lower` is a function parameter, so no Unicode case folding is modelled.
- DealForm.DealRow: `str(amount)` of a parsed Decimal and `strftime("%d.%m.%Y")` of today are parameters (`show`, `date`).
- DealForm.RowForDeal: the handler's exception path is reduced to "no row". The stored amounts are the only inputs that can fail before the row is built. A message without text fails at app/bot.py:268 outside the `try` and is not modelled.
- DealForm.RowForDeal: values in the FSM data are modelled as strings. The session data also holds message ids under other keys, and those keys are not read here.
- SessionStorage.Storage.GetData: the source returns the live dictionary, so a caller could change a session through it. The model returns the map as a value.
- Telegram I/O is not modelled: the aiogram handlers, FSM state switching, message sends, edits and deletions (`_cleanup_all`, `send_and_delete_prev`) and the keyboards.
- app/google_sheets.py is not part of this model: gspread I/O and float arithmetic. Its `append_deal` deducts the expenses again on floats after app/bot.py:310 already did.
- app/config.py and run.py are not part of this model: environment settings and the polling loop.
