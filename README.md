# flatqube-client in Dafny

This project models the core of `flatqube-client`, a command-line client for the FlatQube
exchange's REST API. The client fetches currency statistics and farming-pool snapshots and
prints them as a table. The model covers:

- the decimal display policy of `flatqube/utils.py`. A value is quantized to a number of
  fractional digits, rounding half to even. The digit count is explicit or is looked up in a
  table keyed by the number of integer digits. The result can be normalized. It is then written
  in plain notation with thousands separators and wrapped in `[style]` markup;
- the API records of `flatqube/models.py`, read from a decoded JSON payload, with the derived
  `PairInfo.name` and `PairInfo.address`;
- the client of `flatqube/client.py`:
  - the sort-option enums;
  - `SortBy.__call__`, a stable keyed sort, in place on a list or into a new list;
  - name-to-address resolution;
  - the request URLs and bodies;
  - what `currencies`, `currency_by_address`, `currency_by_name` and `farmin_pool` make of the
    server's reply;
- the `rich` front end of `flatqube/fmt.py`: the sort indicator, the column headers, every
  cell's text and style, and the table built by `add_column`/`add_row`;
- the older front end of `flatqube/cli.py`: `format_value`'s padding and width arithmetic, the
  sort indicators, the column widths, the two loops of `print_currencies_info`, and the choice
  of names in `show`.

A decimal is `Dec(negative, coeff, exp)`, kept as sign, coefficient and exponent, as Python's
`Decimal` keeps it. Its number is `Value(d): real`. Digit counts and `normalize` depend on the
representation, so it is not a rational. The HTTP exchange is a `Transport` object. Its
answer to each request comes from a function given from outside, and it logs every request
sent. The configuration values the code reads are parameters:

- the digit table, the change digits and the normalize flag (`QuantizeConfig`);
- styles, glyphs and colours;
- the name-to-address map and the currency lists.

Modules:

- `Wrappers`: Option and Result.
- `Text`: the Python string operations used.
- `Decimals`: `Decimal` arithmetic: half-even rounding, `quantize`, `normalize`,
  `to_integral_value` and `'f'` formatting.
- `Utils`, `Models`, `Sorting`, `Client`, `Fmt` and `Cli` follow the source files.

## Model

| member | source | states |
|---|---|---|
| Decimals.RoundHalfEven | flatqube/utils.py:13 | the integer nearest n / p, ties going to the even one |
| Decimals.NearestHalfEvenUnique | flatqube/utils.py:18 | the half-even rounding is unique, so every rounding step has exactly one result |
| Decimals.ToIntegralValue | flatqube/utils.py:13 | `to_integral_value()` keeps the sign; it is the identity for a non-negative exponent, and otherwise gives exponent 0 and the half-even rounding of the coefficient |
| Decimals.CoefficientDigits | flatqube/utils.py:14 | `len(as_tuple().digits)` is the number k with 10^(k-1) <= coeff < 10^k (1 for a zero coefficient) |
| Decimals.Quantize | flatqube/utils.py:17-18 | `quantize(Decimal('1.' + '0'*k))` has exponent exactly -k and the input's sign; the coefficient is scaled exactly when no digit is lost, and is the half-even rounding otherwise |
| Decimals.QuantizeExactValue | flatqube/utils.py:17-18 | a quantize that drops no digit keeps the number |
| Decimals.QuantizeSameExponent | flatqube/utils.py:17-18 | quantizing to the exponent a value already has returns it unchanged |
| Decimals.Normalize | flatqube/utils.py:20-21 | `normalize()` keeps the number and the sign; a non-zero coefficient loses all trailing zeros, and zero becomes exponent 0 |
| Decimals.QuantizeNormalized | flatqube/utils.py:17-21 | quantizing a normalized value back to its original exponent gives the original representation |
| Decimals.PlainStringValue | flatqube/utils.py:27 | the `'f'` text of a decimal parses back to the same number |
| Decimals.PlainStringHasNoExponent | flatqube/utils.py:27 | the `'f'` text is made of digits, one optional leading `-` and one optional point: no exponent and no comma |
| Utils.IntegerDigits | flatqube/utils.py:13-14 | the key of the digit table is at least 1; it is the coefficient digit count for a non-negative exponent, and otherwise the digit count of the half-even rounded coefficient |
| Utils.PolicyDigits | flatqube/utils.py:15 | the table's entry for that key, or 0 when the key is absent |
| Utils.ChosenDigits | flatqube/utils.py:12-15 | a missing digit count and an explicit 0 both go to the table; any other explicit count is used as given |
| Utils.ZerosCount | flatqube/utils.py:17 | `'0' * n` has n zeros, and none for a negative n |
| Utils.QuantizeValueMeets | flatqube/utils.py:11-23 | `quantize_value` keeps the sign. Without normalization the exponent is minus the chosen count; the number is kept when no digit is lost, and otherwise the coefficient is the half-even rounding. With normalization the number equals the quantized one, and the coefficient has no trailing zero (zero has exponent 0) |
| Utils.QuantizeWithinHalfUnit | flatqube/utils.py:17-18 | the quantized number is within half a unit of the last kept place of the input: 2 * abs(q - d) <= 10^-k |
| Utils.QuantizeValueIdempotent | flatqube/utils.py:17-21 | with a fixed non-zero digit count, quantizing twice gives the same as quantizing once, normalized or not |
| Utils.ExplicitDigitsIgnorePolicy | flatqube/utils.py:12 | with a non-zero explicit count the table is never consulted: any two tables give the same result |
| Utils.ZeroDigitsUsePolicy | flatqube/utils.py:12 | an explicit 0 gives the same result as no count at all |
| Utils.IntegerDigitsExamples | flatqube/utils.py:13-14 | the key is 1 for 0, 0.3, 8.5 and `1E+2`, 2 for 9.7 and 9.5, and 3 for 100 |
| Utils.PolicyQuantizeNotIdempotent | flatqube/utils.py:12-21 | under the table {1: 1, 2: 0}, 9.46 becomes 9.5, and 9.5 becomes `1E+1`: table-driven quantization is not idempotent |
| Utils.SmallValueCollapses | flatqube/utils.py:12-21 | under {1: 2}, 0.0003123 has key 1 and becomes 0: small values are not given extra digits |
| Utils.IntcommaStep | flatqube/utils.py:27 | one substitution of `humanize.intcomma` changes nothing once the leading digit run has fewer than four digits |
| Utils.IntcommaGroups | flatqube/utils.py:27 | repeating the substitution until nothing changes groups the leading digit run in threes from the right and keeps the sign and the fraction |
| Utils.IntcommaRemove | flatqube/utils.py:27 | deleting the commas from the grouped text gives the input back |
| Utils.HumanizeValue | flatqube/utils.py:26-27 | the humanized text never contains an exponent marker |
| Utils.HumanizeRemovesToPlain | flatqube/utils.py:26-27 | the humanized text is the `'f'` text plus separators only: deleting the commas gives the `'f'` text |
| Utils.HumanizeWritesExponentOut | flatqube/utils.py:26-27 | `1E+2` is written `100` |
| Utils.HumanizeGroupsIntegerPart | flatqube/utils.py:26-27 | -1234.5 is written `-1,234.5`: separators go into the integer part only |
| Utils.StyledText | flatqube/utils.py:30-31 | the result is `[`, the style, `]`, then the text, each at a stated position |
| Utils.StyledTextRoundTrip | flatqube/utils.py:30-31 | a style without `]` and the text are recovered from the styled string |
| Models.CurrencyRoundTrip | flatqube/models.py:9-23 | a payload carrying a currency's fields under their wire keys (`currency`, `priceChange`, `volumeChange24h`, `transactionsCount24h` and the rest) reads back as that currency |
| Models.CurrencyIgnoresExtraKeys | flatqube/models.py:9-23 | only the eleven wire keys matter: two payloads that agree on them read the same |
| Models.CurrencyFieldsRequired | flatqube/models.py:13-23 | every field is required: without any one wire key there is no record |
| Models.DecimalFromPlainString | flatqube/models.py:15-22 | a decimal field sent as its plain-notation string reads as that decimal |
| Models.SameField | flatqube/models.py:9-23 | a field lookup depends only on the value under its own key |
| Models.PairRoundTrip | flatqube/models.py:26-54 | a pair payload, with its `meta` object, reads back as that pair |
| Models.PairMetaRoundTrip | flatqube/models.py:26-35 | a `meta` object carrying `base`, `baseAddress`, `counter`, `counterAddress`, `poolAddress` and `fee` reads back as that pair description |
| Models.PairNameAndAddress | flatqube/models.py:56-62 | a parsed pair's `name` is `meta.base + "/" + meta.counter` and its `address` is `meta.poolAddress` |
| Models.PairNameSplits | flatqube/models.py:56-58 | when the left name has no `/`, the name splits at its first `/` into the two currency names |
| Models.ParseRewardList | flatqube/models.py:158 | a parsed `list[RewardTokenInfo]` has one record per element |
| Models.ParseRewardList1 | flatqube/models.py:95 | a parsed `list[RewardTokenInfo1]` has one record per element |
| Models.ParseRoundList | flatqube/models.py:105 | a parsed `list[RoundInfo]` has one record per element |
| Models.RoundEndTimeOptional | flatqube/models.py:89-95 | an absent or null `end_time` gives None, and the record then parses exactly when the required `start_time` and `reward_info` do |
| Models.RewardListRoundTrip | flatqube/models.py:158 | a `reward_token_root_info` list whose objects carry `reward_root_address`, `reward_currency` and `reward_per_second` reads back as those records, one per element and in order |
| Models.RewardList1RoundTrip | flatqube/models.py:95 | a `reward_info` list whose objects carry `rewardTokenRootAddress`, `rewardTokenCurrency` and `rewardPerSec` reads back as those records, in order |
| Models.RoundRoundTrip | flatqube/models.py:89-95 | a round with `start_time`, its rewards, and `end_time` absent or null for no end time, reads back as that round |
| Models.RoundListRoundTrip | flatqube/models.py:105 | a `rounds_info` list of such rounds reads back as those rounds, in order |
| Models.PoolRoundTrip | flatqube/models.py:98-108 | a `pool_info` object with `vesting_period`, `vesting_ratio` and `rounds_info` reads back as that record |
| Models.HistoryRoundTrip | flatqube/models.py:111-117 | a `history_info` object with the three amounts reads back as that record |
| Models.FarmingPoolRoundTrip | flatqube/models.py:120-160 | a farming-pool payload with every field under its wire key (`left_address`, `share`, `token_root_address` and the rest), its reward list and its `pool_info` and `history_info` objects reads back as that record; `farm_end_time` may be absent or null when there is no end time |
| Models.FarmingPoolFieldsRequired | flatqube/models.py:127-160 | every field but `farm_end_time` is required: without any one of those 24 wire keys there is no record |
| Models.FarmEndTimeOptional | flatqube/models.py:154 | with `farm_end_time` absent or null, a farming-pool record that parses has no end time |
| Sorting.SortPermutes | flatqube/client.py:38-48 | the sorted list is a permutation of the input |
| Sorting.SortOrdered | flatqube/client.py:38-48 | the keys never step backwards: non-decreasing, or non-increasing with `reverse` |
| Sorting.SortStable | flatqube/client.py:38-48 | for every key, the elements with that key keep their relative order, in both directions |
| Sorting.SortOrderedIdentity | flatqube/client.py:38-48 | an already ordered list is left as it is |
| Sorting.InsertPermutes | flatqube/client.py:38-48 | inserting adds exactly the one element |
| Sorting.InsertOrdered | flatqube/client.py:38-48 | inserting into an ordered list keeps it ordered |
| Sorting.InsertStable | flatqube/client.py:38-48 | an inserted element goes in front of the elements with its key |
| Client.SortOrderOf | flatqube/client.py:18-20 | `SortOrder(s)` succeeds exactly for `ascend` and `descend`, gives back the member with that value, and otherwise is a ValueError |
| Client.SortByOf | flatqube/client.py:51-62 | `CurrencySortBy(s)` gives the member whose value is `s`, and a ValueError only when no member has that value |
| Client.SortByValueRoundTrip | flatqube/client.py:51-62 | every member is found again from its value |
| Client.SortKeyIsNamedAttribute | flatqube/client.py:38-60 | the key is the record attribute named after the member; `volume_24h_change` names none, and it is the only member without a key |
| Client.SortedByMeets | flatqube/client.py:38-48 | `sorted(..., key=attrgetter(name), reverse=descend)` fails exactly for `volume_24h_change` on a non-empty list; otherwise it gives a permutation ordered by the key, stable for equal keys |
| Client.PyList.SortBy | flatqube/client.py:43 | `list.sort` reorders the list into the sorted order, or leaves it as it was and raises when the key is missing |
| Client.SortByCall | flatqube/client.py:30-48 | in place, a list is reordered and None returned, and any other iterable is a TypeError; otherwise a new sorted list is returned and the argument is untouched |
| Client.Transport.Send | flatqube/client.py:180-182 | the request is logged and the reply is the given answer to it |
| Client.ResolveKnown | flatqube/client.py:123-132 | when every upper-cased name has an address, the addresses follow the names one for one and in order |
| Client.ResolveFirstUnknown | flatqube/client.py:125-130 | the first name without an address decides the error, which names it upper-cased |
| Client.FlatQubeClient.ResolveNames | flatqube/client.py:123-132 | the append loop computes exactly that resolution |
| Client.CurrenciesBodyFields | flatqube/client.py:132-140 | the body has exactly the keys `currencyAddresses`, `limit` and `offset`: the resolved addresses in the order of the names, their count, and 0 |
| Client.ParseCurrencyItems | flatqube/client.py:145-150 | a parsed list has one record per payload item, each the parse of that item |
| Client.MissingCurrenciesIsEmpty | flatqube/client.py:143 | a payload without `currencies` gives the empty list, whatever the sort |
| Client.CurrenciesOutcomeSorted | flatqube/client.py:143-154 | a successful answer lists the parsed records, permuted and ordered by the sort key in the sort order |
| Client.FlatQubeClient.constructor | flatqube/client.py:69-72 | both base URLs lose their trailing `/`, and there is no session yet |
| Client.FlatQubeClient.Close | flatqube/client.py:77-80 | `__exit__` drops the session |
| Client.FlatQubeClient.Request | flatqube/client.py:178-184 | the session is opened, one POST is sent, and any failure becomes a FlatQubeClientError |
| Client.CurrencyOutcome | flatqube/client.py:93-98 | a failed exchange is a FlatQubeClientError with its text; an answer gives a record exactly when it parses as a currency, and then that parse |
| Client.CurrencyOutcomeOnWire | flatqube/client.py:93-98 | an answer carrying a currency under its wire keys gives that currency |
| Client.FlatQubeClient.CurrencyByAddress | flatqube/client.py:88-98 | one POST to `<swap>/currencies/<address>`, and the outcome of its reply |
| Client.FlatQubeClient.CurrencyByName | flatqube/client.py:100-111 | an upper-cased name with no non-empty address fails before anything is sent; otherwise exactly one request goes to that address, and the result is the outcome of its reply, as for `currency_by_address` |
| Client.FlatQubeClient.Currencies | flatqube/client.py:113-154 | a bad sort option or order is a ValueError, and an unknown name is a FlatQubeClientError, each before any request; otherwise one POST to `<swap>/currencies` with the body for the resolved addresses, and its reply parsed and sorted |
| Client.FlatQubeClient.FetchCurrencies | flatqube/client.py:134-154 | the request for given addresses, and the reply's list sorted in place |
| Client.FlatQubeClient.FarminPool | flatqube/client.py:156-175 | one POST to `<farming>/farming_pools/<pool>` with `afterZeroBalance` and `userAddress` (null when absent); the reply parsed, or a FlatQubeClientError |
| Fmt.SortIndicator | flatqube/fmt.py:43-49 | the indicator is the ascend or descend glyph when more than one currency is shown, and empty otherwise |
| Fmt.SortTitlesMarksOne | flatqube/fmt.py:51-69 | the title chain fails exactly for `volume_24h_change`, `volume_7d` and `transaction_count_24h`, whose test reaches the missing `volume_change_24h` member; otherwise only the sort's title becomes `indicator + " " + title`, and the others are kept |
| Fmt.TitleStripped | flatqube/fmt.py:33-52 | the default titles are their own `strip()` |
| Fmt.IndentText | flatqube/fmt.py:71-73 | `indent` spaces, then the title |
| Fmt.LayoutTitles | flatqube/fmt.py:83-98 | each title after the name heads exactly one column, the count's only when it is shown, and showing the count only appends columns |
| Fmt.Headers | flatqube/fmt.py:83-98 | one header per column of the layout: the indented name, value and count titles, the indented border, and the change titles as they are |
| Fmt.ValueCellParts | flatqube/fmt.py:100-107 | a value cell reads back as the value style and `" $"` plus the humanized policy-quantized value, which has no exponent |
| Fmt.ChangeCellParts | flatqube/fmt.py:109-121 | a change cell's style comes from the raw change (zero, positive, negative), its sign is `+` exactly for a positive change, and its text is two spaces, the sign, the humanized quantized change and `%` |
| Fmt.CurrencyRow | flatqube/fmt.py:126-145 | one cell per column of the layout: the styled name, the styled border, each value and change column the formatted field its title names, and the count |
| Fmt.RowFitsHeaders | flatqube/fmt.py:126-145 | every row has one cell per header, and cell `i` lies in the same column as header `i` |
| Fmt.CountColumnsAppended | flatqube/fmt.py:96-145 | with `show_trans_count` the headers and every row are the twelve-column ones followed by a border and the transaction-count title or cell |
| Fmt.Table.constructor | flatqube/fmt.py:75 | a new table has no columns and no rows |
| Fmt.Table.AddColumn | flatqube/fmt.py:83 | `add_column` appends one header |
| Fmt.Table.AddRow | flatqube/fmt.py:147 | `add_row` appends one row |
| Fmt.CurrenciesTable | flatqube/fmt.py:14-147 | the table fails exactly when the title chain does; otherwise it has the headers for the titles and one row per currency, in input order (none for an empty input) |
| Fmt.BuildTable | flatqube/fmt.py:75-147 | a new table with the given headers and one row per currency, in order |
| Fmt.AddColumns | flatqube/fmt.py:83-98 | the headers are appended in order, the count group last, and the rows are untouched |
| Fmt.AddBorderedColumns | flatqube/fmt.py:84-86 | a border, a value and its optional change header appended in order, rows untouched |
| Fmt.AddRows | flatqube/fmt.py:125-147 | one row appended per currency, in order, after the rows already there |
| Cli.ChangeSignMeets | flatqube/cli.py:36-48 | the change sign is a blank exactly for zero, empty exactly for a negative change, and `+` exactly for a positive one |
| Cli.FrameMeets | flatqube/cli.py:56-65 | the border, then `title_len - value_len + 1` spaces only when the cell is shorter than the title, then the cell; the width is the shown length less two, exactly the title's length after padding, and never less than that length minus one |
| Cli.CellPartsShow | flatqube/cli.py:30-54 | the value part and, when both the change and its width are given, the change part, showing their text in order |
| Cli.FormatValueMeets | flatqube/cli.py:25-65 | a cell shows `│`, the padding and `" " + rjust("$" + h, max + 1) + " "` followed, given both, by `" " + rjust(sign + h, max) + "% "`; it has two or three pieces plus one for padding, and its width obeys the padding rule |
| Cli.MaxOf | flatqube/cli.py:76-79 | Python's `max`: an element of the list and no smaller than any |
| Cli.Lengths | flatqube/cli.py:145 | the length of each string, in order |
| Cli.NameMaxLenMeets | flatqube/cli.py:145 | the name column is as wide as the longest name or `Name`, and at least 4 |
| Cli.MaxLens | flatqube/cli.py:76-79 | `max_lens` fails exactly for an empty list; otherwise both widths bound every value's (or change's) length and are reached |
| Cli.SortIndicatorsMeets | flatqube/cli.py:109-137 | only the sort's own column has an indicator; it is empty for one currency or none, and otherwise the order's glyph, with `%` for a change sort |
| Cli.Unzip | flatqube/cli.py:81-107 | the five lists have one entry per element |
| Cli.Zip | flatqube/cli.py:157-158 | `zip` of aligned lists has one entry per element |
| Cli.ZipUnzip | flatqube/cli.py:157-158 | zipping the five lists gives the entries back, and unzipping zipped lists gives the lists back |
| Cli.CollectedColumns | flatqube/cli.py:81-107 | the first loop's lists are aligned and as long as the input |
| Cli.Collect | flatqube/cli.py:81-107 | the first loop appends each currency's entry to the five lists, in order |
| Cli.Lines | flatqube/cli.py:151-168 | the second loop gives every line in order, and the widths the last line reported |
| Cli.LineWidthsFitTitles | flatqube/cli.py:162-172 | every reported width is at least its title's length minus one |
| Cli.CurrenciesOutputFailsOnEmpty | flatqube/cli.py:145-149 | printing fails exactly for an empty list, with `max`'s empty-sequence error |
| Cli.PrintCurrenciesInfo | flatqube/cli.py:68-176 | the output is the header, sized by the last line's widths, then one line per currency in order |
| Cli.ShowNamesMeets | flatqube/cli.py:301-308 | names with `-l` are rejected; names alone are used; with neither, the default list is used; `-l` alone uses that list or is rejected when it is not configured |
| Text.Upper | flatqube/client.py:104 | each character upper-cased, the length kept |
| Text.UpperIdempotent | flatqube/client.py:104 | upper-casing twice is upper-casing once |
| Text.RStrip | flatqube/client.py:70-71 | `rstrip('/')` is the longest prefix that does not end in `/`, and only `/` is removed |
| Text.StripKeeps | flatqube/fmt.py:52 | a string with no surrounding white space is its own `strip()` |
| Text.Spaces | flatqube/fmt.py:72 | `' ' * n` is n spaces, and none for a negative n |
| Text.RJust | flatqube/cli.py:31 | `f'{s:>{w}}'` is max(w, len(s)) long and ends in `s` after spaces only |

## Left out

- Printing: `rich_print`, `click.echo`, the escape codes `click.style` adds, and how `rich` lays a table out. A table is its header and row strings, and styled terminal text is a sequence of (colour, text) pieces.
- `flatqube/config.py`: YAML loading, merging and the file system. The values the core reads from the global `config` are parameters.
- `pydantic` coercion. A field is read by exact lookup of its wire key: a string, a JSON integer, a boolean, an object or a list of the right kind, or for a decimal a JSON number, an integer or a plain-notation string. Other coercions pydantic performs, such as numeric strings for integers, are not modelled. An `int` field, such as `transactionsCount24h` or `farm_start_time`, accepts a JSON integer only: pydantic would also accept a float such as `5.0` (and, in version 1, truncate `5.7` to 5), which the model rejects. Keys a record does not name are ignored.
- JSON numbers arrive as exact decimals (`JNum`). Python's `json` would produce a float for a non-integral number, and that conversion is not modelled.
- The 28-digit precision of Python's default decimal context, the `InvalidOperation` a quantize beyond it raises, and exponent clamping. The model computes exactly.
- `humanize.intcomma` is modelled on strings as its repeated regular-expression substitution. The library versions that first convert to float are not modelled.
- Text.Upper: upper-cases ASCII letters only, because `str.upper`'s full Unicode mapping (which can change the length of a string) is not modelled.
- Text.Strip: removes ASCII white space only, for the same reason.
- Errors are reduced to their kind and a message. The details pydantic appends after "Cannot parse currency info" are dropped, and so is the server's own error text, which the transport supplies.
- The `requests.Session` object: only whether one is open is kept. `__enter__` returns the client and is not modelled separately.
- `cli.py` imports `CurrencySortOptions`, `CurrencySortOrders` and `len_decimal`, but the modelled files define none of them. The enums are declared with the member names the code tests. Their string values are unknown, so parsing the `--sort` option is not modelled. `len_decimal` is a function parameter.
- The body of `show` after the name choice is left out. It calls `client.currencies(*names, sort=..., sort_order=...)` (flatqube/cli.py:320), which does not match the signature of `FlatQubeClient.currencies` in `flatqube/client.py`. The auto-refresh loop with `time.sleep` and cursor escape codes (flatqube/cli.py:312-331) is left out too.
- The `ctx.fail` message of `show` is kept as plain text. The colour `fail` gives it is not modelled.
- `show_currencies`, `lists` and `add_currency` (flatqube/cli.py:212-277) are left out: they print or edit the configuration and hold no logic of their own.
- The click command and group declarations, `version.py`, `__main__.py` and `__init__.py`.
- The default arguments of `currencies` (`tvl`, `ascend`), of `farmin_pool` (`user_address=None`, `after_zero_balance=True`) and of `SortBy.__call__` (`descend`, not in place) are not modelled: the model's callers always pass them explicitly.
- Models.ParseRewardList, Models.ParseRewardList1 and Models.ParseRoundList: their own contracts state only the length of the result. Their contents are stated by the round-trip lemmas for well-formed lists.
