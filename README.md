# RegosPartnerBotWebhookPowered — a Dafny model of its core

The bot answers partners on Telegram with their balances and stock operations fetched from the
REGOS integration API. This project models, in Dafny, the deterministic parts of that bot:

- the token-bucket limiter that paces calls to REGOS (`regos/regos_rate_limiter.py`), as a class
  whose `Acquire(now)` changes its fields in place, with the clock reading as a parameter;
- the per-token limiter registry, the status rule and the retry on 429 of the asynchronous
  request, and the status rule of the legacy synchronous request (`regos/api.py`); the network
  is a finite sequence of simulated responses;
- the helpers of `core/utils.py`: `format_number`, `parse_flexible_date`, `check_user_period`,
  `get_specific_month` and `convert_to_unix_timestamp`, with the current date as a parameter;
- the balance report and the totals report of `format_messages/partner_balance.py`, including the
  split of long texts at 2048 characters;
- the operations report of `format_messages/partner_operations.py`: grouping by document, line
  and document totals, packing lines into messages under a 2048-character limit (which a
  message exceeds only when the header and one line, or the header and the footer, already do),
  and the summary;
- the shared translation cache of `translations/translator_service.py`, with reading a language
  file as a loader function.

Every loop of the source is a `method` with its invariants, proved against a specification
function; the properties the code promises are lemmas about those functions. The modules are
`Wrappers` (Option, Result), `Text` (Python `str` behaviour: `strip`, `split`, `join`, `rfind`),
`Grouping` (dict-of-lists grouping in first-occurrence order and Python's stable sort),
`Calendar` (proleptic Gregorian dates, `strftime`/`strptime` of `%d.%m.%Y %H:%M:%S`),
`Utils`, `RateLimiter`, `RegosApi`, `PartnerBalance`, `PartnerOperations` and `Translator`.

Where the repository's own description and its code differ, the model follows the code:

- `format_number` compares the whole fraction with `"0"` (`decimal_part[0]` is the fraction
  string, not its first character), so `"1.05"` keeps its fraction and gives `"1.05"`; only a
  fraction of exactly `"0"` is dropped (`Utils.FormattedNumberLeadingZeroFraction`).
- `parse_flexible_date` returns `"DD.MM.YYYY HH:MM:00"`, not the `YYYY-MM-DD HH:MM` its docstring
  announces (`Utils.ParsedDateIsTimestamp`).
- `RegosRateLimiter` does not require `rate > 0`: a rate of 0 fails only on the wait path, where
  the division raises; the model returns that as the outcome `DivisionByZero`.

## Model

| member | source | states |
|---|---|---|
| RateLimiter.Trunc | regos/regos_rate_limiter.py:22 | `int(x)` truncates toward zero: the result is within one of `x`, on the side of zero |
| RateLimiter.Fresh | regos/regos_rate_limiter.py:10-13 | a new limiter holds `tokens == capacity == burst`, its rate, and `updated_at == now` |
| RateLimiter.AcquireStep | regos/regos_rate_limiter.py:18-30 | one `acquire`: `updated_at` becomes `now`; the fast path happens exactly when the refilled count (capped, fraction cut off) is at least 1 and takes one token; otherwise the wait times the rate is `1 - tokens` and the bucket is left at 0; division by zero exactly for rate 0 on the wait path; tokens stay within `[0, capacity]` |
| RateLimiter.RegosRateLimiter.constructor | regos/regos_rate_limiter.py:5-13 | the object's fields are those of a fresh limiter |
| RateLimiter.RegosRateLimiter.Acquire | regos/regos_rate_limiter.py:16-30 | updating the fields step by step gives exactly the new state and wait of `AcquireStep` |
| RateLimiter.AccruedAtLeast | regos/regos_rate_limiter.py:20-22 | with time not running backwards and a non-negative rate, the refill never loses tokens |
| RateLimiter.AcquireAll | regos/regos_rate_limiter.py:16-30 | a sequence of calls keeps rate and capacity, records one admission per call, and leaves `updated_at` at the last clock reading |
| RateLimiter.AcquireAllKeepsBounds | regos/regos_rate_limiter.py:12-30 | with rate > 0 and tokens in `[0, capacity]`, every call keeps `0 <= tokens <= capacity` and none divides by zero, whatever the clock does |
| RateLimiter.FastPath | regos/regos_rate_limiter.py:29-30 | a bucket holding a token admits at once and loses exactly one token from its refilled count |
| RateLimiter.WaitPath | regos/regos_rate_limiter.py:25-28 | a refill below one token makes the caller sleep exactly `1 / rate` and leaves 0 tokens |
| RateLimiter.Instant | regos/regos_rate_limiter.py:18 | `n` calls at the same clock reading |
| RateLimiter.BurstAtOneInstant | regos/regos_rate_limiter.py:22-30 | `n <= tokens` calls at one instant are all admitted at once and leave `tokens - n` |
| RateLimiter.FreshBurst | regos/regos_rate_limiter.py:12-30 | a fresh limiter admits `burst` calls at once at its creation instant, and the next one sleeps `1 / rate` |
| RateLimiter.DoubleCountedSleep | regos/regos_rate_limiter.py:21-28 | as written, five back-to-back callers of a rate-1, capacity-1 limiter are through after 2 s, more than the 3 a token bucket allows |
| RateLimiter.CorrectedAcquireStep | regos/regos_rate_limiter.py:21-28 | the intended step: same admission and tokens, but `updated_at` moves to the end of the sleep |
| RateLimiter.CreditSplit | regos/regos_rate_limiter.py:22 | the tokens earned over two consecutive intervals add up |
| RateLimiter.CreditMonotone | regos/regos_rate_limiter.py:22 | a longer interval earns no fewer tokens |
| RateLimiter.CorrectedStepBudget | regos/regos_rate_limiter.py:22-30 | with the correction, the token handed out plus those left are paid for by the tokens held and what accrued until the caller returns |
| RateLimiter.CorrectedBackToBackBudget | regos/regos_rate_limiter.py:16-30 | with the correction, `n` back-to-back calls plus the tokens left never exceed the start tokens plus what the bucket earned |
| RateLimiter.CorrectedRate | regos/regos_rate_limiter.py:5-30 | with the correction, `n` calls from a fresh limiter take at least `(n - burst) / rate` seconds |
| RegosApi.LimiterRegistry.constructor | regos/api.py:18 | the registry starts empty |
| RegosApi.LimiterRegistry.GetRegosLimiter | regos/api.py:20-23 | a token already present gets its own limiter and nothing changes; a new token gets a fresh limiter of rate 2 and burst 50 added under it alone; no two tokens share a limiter |
| RegosApi.Classify | regos/api.py:58-63 | a non-429 response returns its body exactly when the status is 200 and `ok` is truthy; 200 without `ok` raises 400; any other status raises 502 |
| RegosApi.Dispatch | regos/api.py:54-63 | the number of attempts never exceeds the responses available |
| RegosApi.FirstDecisive | regos/api.py:54-57 | the index of the first response that is not a 429: all before it are 429 |
| RegosApi.DispatchDecidedByFirstNon429 | regos/api.py:54-63 | the first non-429 response decides the outcome and the attempts are its index plus one; only 429s leave the request still retrying |
| RegosApi.RetryOnceThenSuccess | regos/api.py:54-62 | a 429 then a 200 with `ok` takes two attempts and returns the second body |
| RegosApi.Schedule | regos/api.py:45-57 | one limiter call per attempt, the next attempt starting after the sleep, the response and the one-second pause; rate and capacity unchanged |
| RegosApi.ScheduleKeepsBounds | regos/api.py:45-57 | over all retries a sane limiter stays within its bounds and never divides by zero |
| RegosApi.Attempts | regos/api.py:45-57 | on a limiter with a positive rate, the recursive attempts end as `Dispatch` says, change the limiter as `Schedule` says, keep it in bounds and never divide by zero |
| RegosApi.AsyncRequest | regos/api.py:26-63 | the token's limiter is always looked up or created; the outcome and attempts are those of `Dispatch`; that limiter goes through `Schedule` with no division by zero; every other token's limiter is untouched |
| RegosApi.SyncRequest | regos/api.py:99-103 | the body is returned exactly for status 200, whatever `ok` says; any other status gives `None` |
| RegosApi.SyncAgainstAsync | regos/api.py:99-103 | the two request functions agree on a successful 200 and differ on 200 without `ok` (body against 400) and on other statuses (`None` against 502) |
| Translator.WithLanguage | translations/translator_service.py:16-21 | loading adds only the language asked for, reads the file only when it is absent, and never replaces a cached entry |
| Translator.Lookup | translations/translator_service.py:34 | the translation of the key, or the key itself when there is none |
| Translator.WithLanguageIdempotent | translations/translator_service.py:16-21 | loading a language twice is loading it once |
| Translator.CachedLanguageIsStale | translations/translator_service.py:16-38 | a cached language is never reread; after the cache is emptied the file is read again |
| Translator.WithStartupLanguages | translations/translator_service.py:10-14 | startup adds en, ru and uz and keeps every entry already cached |
| Translator.TranslatorService.constructor | translations/translator_service.py:7-14 | the service refers to the one class-level cache, which after construction is the previous cache with en, ru and uz loaded where absent |
| Translator.TranslatorService.LoadLanguage | translations/translator_service.py:16-21 | the cache becomes `WithLanguage` of the old cache |
| Translator.TranslatorService.GetLanguageTranslations | translations/translator_service.py:23-25 | the language is loaded and its cached file returned; a language absent before is read from its file |
| Translator.TranslatorService.GetLanguageVersion | translations/translator_service.py:28-30 | the language is loaded and exactly its version and last-updated date are returned |
| Translator.TranslatorService.Get | translations/translator_service.py:33-34 | for a cached language, the translation of the key or the key itself |
| Translator.TranslatorService.ClearCache | translations/translator_service.py:36-38 | the shared cache is empty, for every service that refers to it |
| Translator.SharedCache | translations/translator_service.py:7-38 | two services share the class-level cache: a language loaded through one is looked up through the other, and clearing through the other empties it for the first |
| Translator.StartupLanguagesReady | translations/translator_service.py:10-34 | after construction `get` can be called for en, ru and uz; languages cached before keep their files |
| Utils.ConvertToUnixTimestamp | core/utils.py:17-22 | the UTC+5 timestamp of a date and time in the default layout, and nothing where `strptime` raises; `ConvertFormatted`, `ConvertEpoch` and `ConvertDayEarlier` state its values |
| Utils.ConvertFormatted | core/utils.py:17-22 | every date and time written in the default layout converts, to its UTC+5 timestamp |
| Utils.ConvertEpoch | core/utils.py:18-21 | 05:00 on 1 January 1970 at UTC+5 is timestamp 0 |
| Utils.ConvertDayEarlier | core/utils.py:17-22 | the same clock time one day earlier is 86400 seconds earlier |
| Utils.DigitGroups | core/utils.py:28-33 | the groups concatenate to the integer part, each has 1 to 3 characters, and all but the first exactly 3 |
| Utils.FormatNumber | core/utils.py:24-37 | the loop and the join produce `FormattedNumber` of the number's text |
| Utils.GroupsRightToLeft | core/utils.py:28-32 | the slices collected from the right, reversed, are the groups of the integer part |
| Utils.FormattedNumberGroups | core/utils.py:25-37 | the integer part of the result, split at its spaces, gives back exactly the groups of three of the input's integer part |
| Utils.FormattedNumberParts | core/utils.py:35-37 | with a fraction: the grouped integer part, then the fraction cut to two characters unless it is exactly "0" |
| Utils.FormattedNumberTruncatesFraction | core/utils.py:37 | "12.345" gives "12.34": the fraction is cut, not rounded |
| Utils.FormattedNumberNegative | core/utils.py:25-36 | "-123.0" gives "- 123": the minus sign is grouped like a digit |
| Utils.FormattedNumberLeadingZeroFraction | core/utils.py:35-37 | "1.05" gives "1.05": only a fraction of exactly "0" is dropped |
| Utils.FormattedNumberInteger | core/utils.py:25-36 | "1000" gives "1 000" |
| Utils.ExplicitTime | core/utils.py:140-150 | an accepted typed time has exactly one colon and the `H:MM` or `HH:MM` shape, with hour at most 23 and minute at most 59 |
| Utils.DateFromParts | core/utils.py:153-190 | one part is a day of the current month and year, two parts a day and month of the current year, three parts a day, month and year with a year below 100 read as 2000 plus it and accepted only in 1900..9999; each is accepted exactly when it is a real calendar date, and any other number of parts is rejected |
| Utils.ParsedDate | core/utils.py:111-201 | what `parse_flexible_date` returns, "DD.MM.YYYY HH:MM:00" or nothing for `False`; the `ParsedDate…` lemmas below state which inputs it accepts and what it gives for them |
| Utils.ParseFlexibleDate | core/utils.py:111-201 | the early returns and the loop over the parts produce exactly `ParsedDate` |
| Utils.CheckParts | core/utils.py:156-158 | true exactly when every part is digits only and at most 9999 |
| Utils.ParsedDateIsTimestamp | core/utils.py:194-198 | every accepted input gives "DD.MM.YYYY HH:MM:00" text that `strptime` and `convert_to_unix_timestamp` accept, with zero seconds |
| Utils.ParsedDateDefaultTime | core/utils.py:138-139 | without a typed time the result is at 23:59 for an end and 00:00 for a start |
| Utils.ParsedDateExplicitTime | core/utils.py:140-150 | with a typed time, `is_end` makes no difference |
| Utils.ParsedDateWithoutTime | core/utils.py:133-163 | text without a space is its dot-separated parts at the default time, or rejected when a part is not digits up to 9999 |
| Utils.ParsedDateDayOfMonth | core/utils.py:161-198 | a bare day number is accepted exactly when it is a day of the current month, and then names that day at the default time |
| Utils.ClockRoundTrip | core/utils.py:142-150 | a zero-padded "HH:MM" is read as that hour and minute |
| Utils.FormatDateParts | core/utils.py:153 | "DD.MM.YYYY" splits at its dots into its three numbers |
| Utils.DateClockText | core/utils.py:125-137 | "DD.MM.YYYY HH:MM" passes the character check, is unchanged by `strip`, and splits at its space into date and clock |
| Utils.PaddedDateParts | core/utils.py:153-190 | the zero-padded day, month and year of a date from 1900 on pass the part check and name that date again |
| Utils.ParsedDateRoundTrip | core/utils.py:111-198 | "DD.MM.YYYY HH:MM" of any date from 1900 on is read back as that date and time |
| Utils.CheckUserPeriod | core/utils.py:203-213 | `False` for more than one dash, otherwise the start and end read from one or two dates, or no period; the `CheckUserPeriod…` lemmas below state its results |
| Utils.CheckUserPeriodRange | core/utils.py:203-209 | "A-B" gives A read as a start and B read as an end when both parse, otherwise no period |
| Utils.CheckUserPeriodDays | core/utils.py:205-209 | two days of the current month give 00:00 of the first to 23:59 of the second, with no check of their order |
| Utils.CheckUserPeriodOneDay | core/utils.py:210-213 | a single day of the current month gives that whole day |
| Utils.CheckUserPeriodExplicitTime | core/utils.py:210-213 | a single date with a typed time gives a period that starts and ends at that moment |
| Utils.FormatDateRange | core/utils.py:39-41 | the first second of the start date and the last second of the end date, as `FormatWholeDay` states |
| Utils.GetSpecificMonth | core/utils.py:43-50 | the range of month `period` of the current year, the last day found as the day before the next month's first; `GetSpecificMonthRange` states what it gives |
| Utils.GetSpecificMonthRange | core/utils.py:39-50 | a month from 1 to 12 gives 00:00:00 on its first day to 23:59:59 on its last day, which are its number of days times 86400 minus 1 seconds apart; any other month gives nothing |
| Utils.FormatWholeDay | core/utils.py:41 | the start and the end of a day are written with 00:00:00 and 23:59:59 |
| Utils.MonthSpan | core/utils.py:43-50 | from the first second of a month to its last second is its days times 86400 minus 1 |
| Calendar.DaysInMonth | core/utils.py:44-48 | every month has 28 to 31 days, February 29 exactly in leap years |
| Calendar.PrevDay | core/utils.py:48 | `date - timedelta(days=1)` of a valid date is a valid date |
| Calendar.EpochDayPrevDay | core/utils.py:48 | `date - timedelta(days=1)` is exactly one day earlier on the day count |
| Calendar.DaysBeforeDecember | core/utils.py:45-46 | December is the last 31 days of the year |
| Calendar.Pad2 | core/utils.py:194-198 | `%d`, `%m`, `%H`, `%M` write two digits that read back as the number |
| Calendar.Pad4 | core/utils.py:194-198 | `%Y` writes four digits that read back as the year |
| Calendar.FormatDateTime | core/utils.py:198 | `strftime('%d.%m.%Y %H:%M:%S')` is 19 characters |
| Calendar.ParseDateTime | core/utils.py:19 | whatever `strptime` accepts is a valid date and time |
| Calendar.ParseFormatDateTime | core/utils.py:17-22 | parsing what `strftime` wrote gives back the same date and time |
| Text.Strip | core/utils.py:125 | `strip` leaves text that neither starts nor ends with whitespace, and never lengthens it |
| Text.NonSpaceStrip | format_messages/partner_balance.py:74-77 | `strip` removes whitespace only |
| Text.SplitCount | core/utils.py:204-206 | `split` gives one piece more than the separators |
| Text.SplitJoin | core/utils.py:33 | splitting a join at its separator gives back the pieces when none holds the separator |
| Text.RFind | format_messages/partner_balance.py:73 | `rfind(sub, 0, end)` is the last occurrence ending by `end`, or -1 when there is none |
| Grouping.GroupBy | format_messages/partner_balance.py:26-29 | the loop with `setdefault(...).append` gives the keys in order of first occurrence and, under each, its elements in order |
| Grouping.GroupAppend | format_messages/partner_operations.py:45-49 | one element goes to the end of its key's group, created with its key listed when new |
| Grouping.GroupOf | format_messages/partner_operations.py:54 | `ops_by_doc.get(doc_id, [])` is the group of the key, empty for an unknown key |
| Grouping.KeysDistinct | format_messages/partner_balance.py:26-33 | no currency is listed twice |
| Grouping.KeysComplete | format_messages/partner_balance.py:26-33 | every element's key is listed |
| Grouping.MembersHaveKey | format_messages/partner_balance.py:26-29 | a group holds only elements with its key |
| Grouping.MembersNonEmpty | format_messages/partner_operations.py:54-57 | a key has a non-empty group exactly when some element has it |
| Grouping.PartitionSum | format_messages/partner_balance.py:110-128 | the group sums add up to the sum over all elements |
| Grouping.SumOfGroupsFilter | format_messages/partner_operations.py:52-57 | the group sums of distinct keys are the sum over the elements having one of those keys |
| Grouping.SortByPermutes | format_messages/partner_balance.py:35 | sorting only reorders the operations |
| Grouping.SortBySorted | format_messages/partner_balance.py:35 | the result is in date order, newest first when reversed |
| Grouping.SortByStable | format_messages/partner_balance.py:35 | operations of equal date keep their order, also when reversed |
| Grouping.SortBySum | format_messages/partner_balance.py:104-124 | sorting does not change a sum |
| PartnerBalance.OpLines | format_messages/partner_balance.py:51-68 | the type line and the code line first; then the rate, debit and credit lines, each present exactly when the rate is not 1, the debit not 0 and the credit not 0, in that order; then the remainder line and the date line |
| PartnerBalance.BlocksMarkLastOnly | format_messages/partner_balance.py:36-69 | a currency's text holds the blocks of its operations in order, and only the block of the last operation has its remainder marked current |
| PartnerBalance.BuildCurrencyText | format_messages/partner_balance.py:38-69 | the loop builds the header and each operation's block, the last one marked current |
| PartnerBalance.Cut | format_messages/partner_balance.py:72-75 | the cut is at most 2046 when a blank line is found in the first 2048 characters, and just before the last character otherwise; the rest gets shorter |
| PartnerBalance.SplitChunks | format_messages/partner_balance.py:72-77 | a text that fits is one message, stripped |
| PartnerBalance.CutOnce | format_messages/partner_balance.py:73-75 | one round sends the stripped text before the cut and keeps the stripped rest |
| PartnerBalance.SplitMessages | format_messages/partner_balance.py:72-77 | the `while` loop terminates and sends exactly `SplitChunks` of the text |
| PartnerBalance.SplitChunksBounds | format_messages/partner_balance.py:72-77 | every message but the last two is at most 2046 characters, the last at most 2048, the one before at most 2046 unless the last is one character left by a cut without a blank line |
| PartnerBalance.SplitChunksKeepText | format_messages/partner_balance.py:72-77 | the messages hold every non-whitespace character of the text, in order |
| PartnerBalance.CurrencyMessages | format_messages/partner_balance.py:33-77 | one currency's group is sorted by date, written and split |
| PartnerBalance.BalanceMessages | format_messages/partner_balance.py:10-79 | the balance report as a function: the "no_data" text, or each currency's split messages in first-appearance order; `BalanceMessagesCount` states its message count per currency and `GroupsSortedAndComplete` the sorted groups it writes |
| PartnerBalance.FormatPartnerBalance | format_messages/partner_balance.py:10-79 | the report is `BalanceMessages`; no data gives exactly the "no_data" translation |
| PartnerBalance.GroupMessages | format_messages/partner_balance.py:26-77 | the loop over the currencies gives their messages in order of first appearance |
| PartnerBalance.BalanceMessagesCount | format_messages/partner_balance.py:21-77 | the report has at least one message, at least one per currency, and exactly one per currency when each currency's text fits |
| PartnerBalance.MessagesPerCurrency | format_messages/partner_balance.py:33-77 | each currency gives at least one message, exactly one when its text fits |
| PartnerBalance.GroupsSortedAndComplete | format_messages/partner_balance.py:26-35 | every operation appears under its own currency, each currency's operations are in date order, equal dates keeping their input order |
| PartnerBalance.DocTypeSumSplit | format_messages/partner_balance.py:117-128 | the currency total is the credit sums of the document types minus their debit sums |
| PartnerBalance.DocTypeTotals | format_messages/partner_balance.py:107-137 | a currency's totals text and `total_currency_sum` |
| PartnerBalance.DocTypeLoop | format_messages/partner_balance.py:110-134 | the loop over the document types writes one line per type in order of first appearance and adds up their values |
| PartnerBalance.KeysOccur | format_messages/partner_balance.py:140-142 | every currency has operations, so the first and the last exist |
| PartnerBalance.CurrencyList | format_messages/partner_balance.py:143-147 | one entry per currency |
| PartnerBalance.CurrencyListAt | format_messages/partner_balance.py:141-147 | the entry of a currency is its name and the exchange rate of its last operation |
| PartnerBalance.CurrencyTotalOf | format_messages/partner_balance.py:102-157 | one currency's messages, its recorded rate, and its share (total plus first start amount, at the last rate) |
| PartnerBalance.ContributionOf | format_messages/partner_balance.py:140-149 | the share computed from the first and last operations is the currency's contribution |
| PartnerBalance.CurrencyTotals | format_messages/partner_balance.py:102-157 | the loop gives every currency's messages, `currency_list` and `total_in_base_currency` |
| PartnerBalance.TotalsRound | format_messages/partner_balance.py:102-157 | one round adds one currency's messages, entry and share |
| PartnerBalance.TotalMessages | format_messages/partner_balance.py:81-167 | the totals report as a function, nothing where a rate of 0 raises; `TotalMessagesFail`, `TotalMessagesLast` and `CurrencyTotalIsNet` state when it fails, its shape and its sums |
| PartnerBalance.FormatTotal | format_messages/partner_balance.py:81-167 | the totals report is `TotalMessages`, or the ZeroDivisionError |
| PartnerBalance.TotalLines | format_messages/partner_balance.py:159-163 | the loop writes one grand-total line per currency, or stops at a rate of 0 |
| PartnerBalance.GrandTotalLinesFail | format_messages/partner_balance.py:161-163 | the final message fails exactly when some recorded rate is 0 |
| PartnerBalance.TotalMessagesFail | format_messages/partner_balance.py:141-163 | the totals report raises exactly when the last operation of some currency has rate 0 |
| PartnerBalance.TotalMessagesLast | format_messages/partner_balance.py:157-165 | the grand totals are always the last message, after at least one message per currency |
| PartnerBalance.TotalsCount | format_messages/partner_balance.py:152-157 | every currency gives at least one totals message |
| PartnerBalance.CurrencyTotalIsNet | format_messages/partner_balance.py:110-128 | the currency total is all its credits minus all its debits: grouping by type loses nothing and counts nothing twice |
| PartnerBalance.SingleCurrencyNet | format_messages/partner_balance.py:92-128 | with one currency its total is all credits minus all debits of the data |
| PartnerOperations.FieldOf | format_messages/partner_operations.py:33-34 | only "cost" and "price" are accepted |
| PartnerOperations.MissingValueAddsNothing | format_messages/partner_operations.py:81-84 | an operation without the chosen key has unit value 0 and adds nothing to its document total |
| PartnerOperations.Header | format_messages/partner_operations.py:59-70 | the document header, with the rate only when it is not 1; every new message of the document is started from it by `Push` |
| PartnerOperations.OpLine | format_messages/partner_operations.py:87-95 | the two lines of an operation under its number; `PiecesNumbered` places line `i` of `ops[i]` |
| PartnerOperations.Footer | format_messages/partner_operations.py:105-107 | the rule and the document total, packed after the last line (`PackDocument`) |
| PartnerOperations.Summary | format_messages/partner_operations.py:120-124 | the summary text; `SummaryLast` proves it is the last message and shows the returned totals |
| PartnerOperations.Push | format_messages/partner_operations.py:97-103 | the packing rule for one piece; `PushAllGrows`, `PushAllNoFlush` and `PushAllFits` state what it sends and keeps |
| PartnerOperations.Pieces | format_messages/partner_operations.py:76-95 | one line per operation |
| PartnerOperations.PiecesNumbered | format_messages/partner_operations.py:76-94 | the `i`-th line shows `ops[i]` numbered `i + 1` |
| PartnerOperations.PushAllFits | format_messages/partner_operations.py:98-103 | when the header with any one line fits, packing never makes a message over 2048 |
| PartnerOperations.PushAllGrows | format_messages/partner_operations.py:98-103 | sent messages are never changed, and each line sends at most one |
| PartnerOperations.PushAllNoFlush | format_messages/partner_operations.py:98-103 | lines that fit together are all appended to the current message |
| PartnerOperations.PackedFit | format_messages/partner_operations.py:98-117 | a document sends at most one message per line plus two, and none over 2048 when each line and the footer fit beside the header |
| PartnerOperations.PackedSingle | format_messages/partner_operations.py:98-117 | a document whose header, lines and footer fit together is one right-stripped message |
| PartnerOperations.Add | format_messages/partner_operations.py:98-114 | the length check either appends the piece or sends the current message and starts a new one with the header |
| PartnerOperations.OperationLine | format_messages/partner_operations.py:77-95 | the two lines of an operation and its line total |
| PartnerOperations.DocFooter | format_messages/partner_operations.py:106-107 | the footer with the document total |
| PartnerOperations.PackOperation | format_messages/partner_operations.py:76-103 | one pass packs the operation's line and adds its total to `doc_total` |
| PartnerOperations.PackDocument | format_messages/partner_operations.py:73-117 | the loop and the footer give the document's packed messages and `doc_total` |
| PartnerOperations.DocumentMessages | format_messages/partner_operations.py:59-117 | the messages of one document under its header, and its total |
| PartnerOperations.Ids | format_messages/partner_operations.py:53 | the documents' ids, in order |
| PartnerOperations.Generate | format_messages/partner_operations.py:19-134 | a `cost_or_price` other than "cost" or "price" is exactly the ValueError case |
| PartnerOperations.DocsStepSkipped | format_messages/partner_operations.py:54-57 | a document without operations adds no message, no operation and nothing to the total |
| PartnerOperations.DocsStepListed | format_messages/partner_operations.py:56-118 | a document with operations adds its messages, its operations and its total |
| PartnerOperations.ProcessDocument | format_messages/partner_operations.py:52-118 | one pass of the loop over the documents |
| PartnerOperations.DocumentsLoop | format_messages/partner_operations.py:44-118 | the grouping and the loop give the documents' messages, `total_operations` and `grand_total` |
| PartnerOperations.SummaryMessage | format_messages/partner_operations.py:121-124 | the summary text |
| PartnerOperations.GenerateTelegramMessages | format_messages/partner_operations.py:19-134 | the check, the loop and the summary give exactly `Generate` |
| PartnerOperations.DocsMessagesShape | format_messages/partner_operations.py:52-117 | each document with operations gives at least one message, exactly one when short, and none over 2048 when its lines fit |
| PartnerOperations.DocShape | format_messages/partner_operations.py:59-117 | the same for one document |
| PartnerOperations.UnmatchedDocumentsSilent | format_messages/partner_operations.py:54-57 | documents no operation refers to send, count and add nothing |
| PartnerOperations.OnlySummary | format_messages/partner_operations.py:52-134 | with no operation of a listed document the only message is the summary, which still counts every listed document |
| PartnerOperations.SummaryLast | format_messages/partner_operations.py:117-134 | the summary is always last, after at least one message per document with operations, and shows the returned totals |
| PartnerOperations.CountAsSum | format_messages/partner_operations.py:85 | `total_operations` is the group sizes of the listed documents added up |
| PartnerOperations.ListedOperations | format_messages/partner_operations.py:84-132 | with no document listed twice, `operations_count` counts exactly the operations of listed documents and `total` adds exactly their line totals |

## Left out

- The network: the aiohttp session, its timeout, `requests.post`, the URL, JSON encoding and
  decoding, and exceptions raised by the HTTP client. Responses are a finite sequence of
  simulated `(status, body, ok)` values, and how long each takes to arrive is an input.
- `RateLimiter.AcquireStep`: the clock, the rate and the refill are exact reals, so the float
  rounding of `tokens + elapsed * rate` to just below a whole number before `int()` cuts it off
  is not modelled.
- `RegosApi.Attempts`: the source retries on 429 without end; over a finite sequence of responses
  that are all 429 the model ends with the outcome `StillRateLimited`, which stands for the
  request still retrying.
- `RegosApi.AsyncRequest`: one request is modelled alone on its token. No other request acquires
  on the same limiter between its attempts, whether while a POST is in flight or during the
  one-second pause after a 429, so the limiter's final state is that of this request's
  attempts only.
- The asyncio lock and real sleeping: one `acquire` is one atomic step, because the lock is held
  across the sleep; the clock reading is the parameter `now`.
- Float rendering (`f"{x:,.2f}"`, `format_number` of `partner_operations.py`, `str()` of a rate)
  and `datetime.fromtimestamp(...).strftime(...)`, which depends on the host's time zone: these
  are uninterpreted functions of a `Render` value. Amounts are `real`, so float rounding is not
  modelled.
- The text of a number in `format_number` of `core/utils.py` is its input, since `str(float)` is
  float rendering.
- `parse_flexible_date` and `format_number` handle ASCII digits only; Python's `isdigit` and `\d`
  also accept other Unicode digits. `convert_to_unix_timestamp` accepts only the zero-padded
  layout, not everything `strptime` is lenient about.
- Reading the language files: the loader is a function fixed for the life of the cache. A file
  without `translations`, `version` or `last_updated` (a KeyError) is not modelled.
- `Translator.TranslatorService`: a language with no file (the FileNotFoundError of `open`) is
  not modelled; the loader gives a file for every language.
- `Translator.TranslatorService.Get`: requires the language to be cached, where the source raises
  KeyError.
- `op is last_op` compares objects; decoded JSON objects are distinct, so the model compares
  positions.
- Documents and operations of `generate_telegram_messages` always carry the fields the source
  reads with `[...]`; a missing one (a KeyError) is not modelled.
- `format_excel_message.py`, `regos/reports.py`, the logger and the configuration.
- The other helpers of `core/utils.py`: file reading and writing, hashing, templates, and the
  functions that read the clock or the host's time zone.
- The module-level side effects of `partner_balance.py` and the demo at the end of
  `partner_operations.py`.
- The test file's firm-name assertion: the balance formatter writes no firm line.

## Findings

| source | as written | input that shows it | evidently intended | confidence | as-written member | corrected member |
|---|---|---|---|---|---|---|
| regos/regos_rate_limiter.py:21-28 | the wait path sets `tokens = 0` after sleeping but leaves `updated_at` at the moment the sleep began, so the next refill counts the slept time again and back-to-back callers get about twice the rate | rate 1, burst 1, five callers back to back from time 0: all five are through at time 2, where a token bucket of rate 1 and capacity 1 allows 3 | charge the sleeping caller for the time it sleeps, i.e. move `updated_at` to the end of the sleep, so that `n` callers take at least `(n - burst) / rate` seconds | not executed | RateLimiter.DoubleCountedSleep | RateLimiter.CorrectedRate |

The request model (`RegosApi`) keeps the limiter as written.
