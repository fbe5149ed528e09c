# Japanese invoice parser: a verified model of its parsing engine

This project models the parsing engine of `process_invoice.py` in Dafny. The engine turns a list
of OCR tokens into an invoice record. Each token has a text, a four-corner bounding box and a
confidence. The record has five header fields and a list of line items.

Modelled:

- `clean_amount`: deletes the currency glyphs and whitespace, then keeps only digits, commas and
  points (module `Amount`).
- The token filter of `parse_line_items_logic`. It drops noise glyphs, tokens that contain
  a skip term, column-header labels, and date- or time-shaped texts (module `TokenFilter`).
- The stable sorts by top edge and by left edge, as an in-place insertion sort on an array
  (module `Sorting`). It is proved against the function `SortedBy`, which is proved ordered,
  a permutation, stable, and the only sequence with those three properties.
- Row clustering by the running mean of the vertical centres, with a 15-pixel tolerance (module
  `RowClustering`), and whether the rows depend on the order of the input tokens (module
  `RowOrder`).
- Per row (module `LineItems`):
  - classification into description, number and unit texts;
  - the skip rules;
  - cleaning and `float` conversion;
  - assignment of the numbers to unit price, quantity and amount;
  - reconciliation of one missing field;
  - the emit test.
- The whole line-item pass, including the `IndexError` that a comma-only number token can raise.
  Such an error makes the line-item list empty.
- The header pattern loop and the date fallback of `parse_japanese_invoice`, and the assembly of
  the result (module `Header`).

Imperative parts of the source are methods proved against specification functions:

- the filter loop;
- the in-place sorts;
- the row loop with its running mean;
- the per-row loops;
- the reconciliation that updates the line-item dict;
- the header loop that fills the output dict and breaks at the first match.

The functions carry the lemmas.

Python's `\d` is Unicode-aware. It is a parameter `digit: char -> bool` wherever the source uses
it. The lemmas that need it assume `DigitsWellFormed(digit)`: the ASCII digits are digits, and
no separator, currency glyph or whitespace character is.

Coordinates are integers. Centres and means are exact reals.

The date test of the token filter (process_invoice.py:132) is written with the classes `[/-年]`
and `[/-月]`, which Python reads as character ranges rather than three literals (see Findings).
The filter, and everything built on it, takes a parameter `classes: DateClasses`. With
`AsWritten` it is the program as it runs; with `Intended` it is the corrected program. Every
lemma about the filter and the pipeline holds for both, unless its statement names one.

## Model

| member | source | states |
|---|---|---|
| Amount.CleanAmount | process_invoice.py:86-95 | a result, when there is one, is a non-empty subsequence of the input made only of digits, commas and points |
| Amount.CleanAmountIsSelection | process_invoice.py:86-95 | the result is exactly the input's digits, commas and points in order, or None when it has none: the first substitution never removes what the second keeps |
| Amount.CleanAmountNoneIff | process_invoice.py:91-95 | None exactly when the input is empty or holds no digit, comma or point |
| Amount.CleanAmountIdempotent | process_invoice.py:93-95 | cleaning a cleaned amount returns it unchanged |
| Amount.CleanAmountFixesAmountText | process_invoice.py:93-95 | a non-empty text made of digits, commas and points is returned as it is |
| TokenFilter.NumberTokenCleansToItself | process_invoice.py:162 | a text that passes the number pattern of the row loop is left unchanged by `clean_amount`, which is why the cleaning of line 185 keeps such tokens whole |
| TokenFilter.RelevantSound | process_invoice.py:123-135 | every survivor has non-empty stripped text, is no noise glyph, holds no skip term, is no column header and is neither date- nor time-shaped under the date classes given; the survivors are a subsequence of the input |
| TokenFilter.RelevantComplete | process_invoice.py:123-135 | every token that passes all the tests under the date classes given survives |
| TokenFilter.FilterRelevant | process_invoice.py:123-135 | the filter loop returns exactly the tokens that pass the tests, in input order, under either reading of the date classes |
| TokenFilter.ClockTimesDropped | process_invoice.py:132 | a clock time "h:mm" or "hh:mm" matches the time pattern and is dropped under either reading |
| TokenFilter.DigitRunIsNumberToken | process_invoice.py:162 | any non-empty run of ASCII digits passes the number pattern |
| TokenFilter.NumberTokensAreNotDates | process_invoice.py:132 | no text passing the number pattern is date-shaped with the intended classes, or time-shaped |
| TokenFilter.NumberTokensSurvive | process_invoice.py:126-133 | with the intended date classes, no number token is dropped by the filter |
| TokenFilter.DigitRunsAreDatesAsWritten | process_invoice.py:132 | as written, every run of 7 to 10 ASCII digits matches the date pattern and is dropped, though the intended filter keeps it |
| TokenFilter.PlainAmountDroppedAsWritten | process_invoice.py:132 | "1250000" is a number token that the date pattern as written matches and the intended one does not, so only the program as written drops it |
| TokenFilter.HyphenDatesKeptAsWritten | process_invoice.py:132 | as written, a hyphenated date such as "2024-01-15" survives the filter |
| TokenFilter.IntendedDropsHyphenDates | process_invoice.py:132 | with the intended classes, every hyphenated date is date-shaped and dropped |
| TokenFilter.HyphenDateKeptOnlyAsWritten | process_invoice.py:132 | "2024-01-15" is date-shaped only with the intended classes, so only the program as written keeps it |
| Sorting.SortInPlace | process_invoice.py:137 | after the in-place sort the array holds `SortedBy` of its old contents |
| Sorting.InsertInPlace | process_invoice.py:137 | one insertion step places the next element where `InsertBy` puts it and leaves the rest of the array alone |
| Sorting.SortedByPermutes | process_invoice.py:137 | the sorted sequence is a permutation of the input |
| Sorting.SortedByOrdered | process_invoice.py:137 | the sorted sequence is ordered by the key |
| Sorting.SortedByStable | process_invoice.py:154 | elements with equal keys keep their input order |
| Sorting.StableSortIsSortedBy | process_invoice.py:137 | any ordered rearrangement that keeps equal keys in input order is `SortedBy`, so the model agrees with any stable sort |
| RowClustering.ClusterRows | process_invoice.py:139-151 | the row loop, with its running mean, builds `Clustered` of the sorted tokens |
| RowClustering.ClusteredFlattens | process_invoice.py:139-151 | concatenating the rows gives back the tokens in order, with nothing lost or repeated |
| RowClustering.ClusteredFollowsRule | process_invoice.py:143-151 | no row is empty; each row's first token lies more than 15 from the mean of the row before; each later token lies within 15 of the mean of the tokens before it in its row |
| RowClustering.RuleDeterminesRows | process_invoice.py:143-151 | any rows that follow that rule and concatenate to the tokens are the rows the loop builds |
| Sorting.DistinctKeysSortOrderFree | process_invoice.py:137 | two rearrangements of the same tokens, no two of which share a key, sort to the same sequence |
| RowOrder.DistinctTopsGiveSameRows | process_invoice.py:137-151 | when no two tokens share a top edge, every rearrangement of the input gives the same rows |
| RowOrder.ShuffleChangesRows | process_invoice.py:137-151 | with tied top edges the rows follow input order: three tokens with top edge 0 and centres 0, 14 and 28 group as [a, b], [d] in one order and as [a], [d, b] in another |
| LineItems.Classify | process_invoice.py:156-169 | numbers, descriptions and the unit each have their role, and numbers and descriptions are subsequences of the row's texts |
| LineItems.ClassifySelects | process_invoice.py:160-168 | the numbers are exactly the row's texts whose role is number, and the description exactly those whose role is description, each in row order |
| LineItems.ClassifyUnit | process_invoice.py:164-165 | the unit is the last unit word of the row, and None when the row has none |
| LineItems.UnitWordsAreUnits | process_invoice.py:162-165 | each of the twelve unit words is taken as the unit, never as a number |
| LineItems.ClassifyRow | process_invoice.py:156-169 | the classification loop computes `Classify` of the row's stripped texts |
| LineItems.CleanedNumberTokens | process_invoice.py:185 | the cleaning keeps every number token of a row, unchanged |
| LineItems.NumericValuesOfNumberTokens | process_invoice.py:186-191 | among number tokens, exactly the comma-only ones fail to parse, so the values are that many fewer |
| LineItems.NumericValuesOf | process_invoice.py:186-191 | the conversion loop returns the parsable values in order, skipping the others |
| LineItems.AssignNumbers | process_invoice.py:193-205 | three or more numbers give unit price, quantity and amount; two give quantity and amount (no unit price) when the first value is below the second and below 1000, else unit price and amount (no quantity); one gives the amount; two numbers with one value raise |
| LineItems.AssignFields | process_invoice.py:193-205 | the assignment of the dict's fields computes `AssignNumbers` |
| LineItems.Reconcile | process_invoice.py:207-221 | description and unit are kept; the item is unchanged or exactly one absent field is filled; a field that does not parse leaves it unchanged; a filled field's two sources are non-zero and the divisor is positive |
| LineItems.ReconcileDerivesAmount | process_invoice.py:212-213 | with quantity and unit price present and non-zero and no amount, only the amount is filled, with their product rounded to a whole number |
| LineItems.ReconcileDerivesUnitPrice | process_invoice.py:214-216 | with positive quantity, non-zero amount and no unit price, only the unit price is filled, reading back as amount over quantity, whole or to the cent |
| LineItems.ReconcileDerivesQuantity | process_invoice.py:217-219 | with positive unit price, non-zero amount and no quantity, only the quantity is filled, reading back as amount over unit price, whole or to the cent |
| LineItems.ReconcileFields | process_invoice.py:207-221 | the in-place update of the dict computes `Reconcile` |
| Numbers.ParseFloat | process_invoice.py:189 | a value read is non-negative, and the empty text does not parse |
| Numbers.ParseWholeDigits | process_invoice.py:189 | a non-empty run of ASCII digits reads as its decimal value |
| Numbers.NumberTokenParseFailsIff | process_invoice.py:186-191 | a number token fails to parse once its commas are removed exactly when it is commas alone |
| Numbers.FormatGroupedRoundTrip | process_invoice.py:216 | `int(x):,` with its commas removed reads back as the integer |
| Numbers.FormatWholeRoundTrip | process_invoice.py:213 | `:,.0f` with its commas removed reads back as the value rounded half to even |
| Numbers.FormatFixed2RoundTrip | process_invoice.py:216 | `:,.2f` with its commas removed reads back as the value rounded to the cent |
| Numbers.FormatQuotientRoundTrip | process_invoice.py:219 | the text of a derived quotient reads back as the quotient when whole, else as it rounded to the cent |
| LineItems.DerivedProductRoundTrip | process_invoice.py:213 | the `:,.0f` text of a product parses back to the product rounded half to even |
| LineItems.DerivedQuotientRoundTrip | process_invoice.py:216 | the text of a quotient parses back to the quotient when whole, else to it rounded to the cent |
| LineItems.PartsIndexErrorIff | process_invoice.py:185-198 | a row's parts raise exactly when they hold two number tokens and one of them is commas alone |
| LineItems.RowIndexErrorIff | process_invoice.py:156-198 | a sorted row raises exactly when it has two number tokens and one of them is commas alone |
| LineItems.StrayCommaRaises | process_invoice.py:162-198 | a row reading "りんご", ",", "100" raises the IndexError |
| LineItems.AssembleParts | process_invoice.py:170-224 | the per-row steps compute `PartsOutcome`: skip, IndexError, or the reconciled item when it is emittable |
| LineItems.AssembleRow | process_invoice.py:156-224 | one row sorted by its left edge yields `RowOutcomeOf` that row |
| LineItems.SortAndAssemble | process_invoice.py:154-224 | one row, sorted in place by its left edge, yields its outcome |
| LineItems.AssembleRows | process_invoice.py:153-224 | the row loop collects the items of the rows in order, and stops with None at the first row that raises |
| LineItems.ItemsFromNoneIff | process_invoice.py:153-224 | the items are lost exactly when some row raises |
| LineItems.ItemsFromAppend | process_invoice.py:153-224 | the items of earlier rows come before those of later rows |
| LineItems.ItemsFromItems | process_invoice.py:223-224 | every item comes from a row that yields it |
| LineItems.LineItemsEmittable | process_invoice.py:223-224 | every returned line item has a non-empty description and one of amount, unit price or quantity |
| LineItems.ParseLineItems | process_invoice.py:102-226 | the whole pass (filter, sort by top, clustering, row loop) computes `LineItemsResult` |
| LineItems.NoTokensNoItems | process_invoice.py:102-226 | no tokens give no line items |
| Header.Set | process_invoice.py:256 | storing a value sets that key and keeps every other key |
| Header.FieldOrderCoversAll | process_invoice.py:240-248 | the loop visits each of the five keys exactly once |
| Header.FirstMatchNoneIff | process_invoice.py:250-258 | a field finds no value exactly when none of its patterns matches |
| Header.FirstMatchIsEarliest | process_invoice.py:250-258 | a value found comes from the earliest of the field's patterns that matches |
| Header.SearchField | process_invoice.py:250-258 | the pattern loop of a field stops at the first match and returns its value, None when nothing matches |
| Header.ExtractHeader | process_invoice.py:228-258 | every key ends up holding the value of its first matching pattern |
| Header.FieldValue | process_invoice.py:252-255 | a found group is stored stripped, and for the total amount passed through `clean_amount` |
| Header.TotalAmountIsSelection | process_invoice.py:252-255 | the stored total amount is what `[\d,.]` keeps of the whole group, None when nothing: the strip before cleaning changes nothing |
| Header.AllTextHoldsEveryToken | process_invoice.py:237 | every token's text occurs in the joined text the patterns search |
| Header.HeaderFromEarliestPattern | process_invoice.py:240-258 | in the result, a non-date field holds the value of its earliest matching pattern, and None when none matches |
| Header.EarliestPatternWins | process_invoice.py:250-258 | the first match is that of the earliest matching pattern |
| Header.TotalAmountIsClean | process_invoice.py:254-255 | a total amount found is non-empty and made only of digits, commas and points |
| Header.DateFallback | process_invoice.py:260-265 | the date fallback changes no other field; it keeps a set date; it fills an unset invoice date with the first date found and an unset due date with the second, when there are that many |
| Header.ParseHeader | process_invoice.py:228-265 | the header part of the parser computes `InvoiceHeader` |
| Header.ParseInvoice | process_invoice.py:228-273 | the parser returns `InvoiceOf` the tokens: the header and the line items, under either reading of the date classes |
| Header.LineItemFailureGivesNoItems | process_invoice.py:267-271 | the header is returned whatever the line items do, and when any row of the table raises the result holds no line items rather than an error |

## Left out

- Reading PDFs and images, the OCR call, command-line handling and JSON output. These are I/O
  around foreign libraries. The model starts from the token list.
- The confidence threshold applied when the tokens are extracted. The engine never reads the
  confidence, and the model carries it without using it.
- `initialize_ocr`, `prepare_image`, `extract_with_easyocr`, `validate_result`,
  `process_japanese_invoice_fast` and the `__main__` block. They are I/O, timing and printing.
- IEEE floating point. Centres, means and the values of `float` are exact reals. `float` is
  modelled on the texts that reach it: ASCII digits with at most one point. Infinities, NaN and
  rounding error are not modelled.
- Python's number formatting. `:,.0f`, `:,.2f` and `int(x):,` are modelled for non-negative
  values, with round half to even. Python rounds the binary value of the float, which can differ
  for ties that are not exact in binary.
- The header regexes. Each pattern is an abstract matcher from the joined text to the group of
  its leftmost match. The date search of the fallback is an abstract function returning the
  matches in text order. The verified part is the policy: the first pattern wins, and the
  fallback fills only unset fields. The character-range issue of the Findings table also affects
  the header date patterns at lines 242, 243 and 261. It is not exhibited there, because those
  patterns are abstract.
- Features this code does not implement: column anchors and interpolation, nearest-anchor
  assignment, a spatial total-amount search, digit-correction heuristics, bank and
  account-holder fields, and a sorted earliest/latest date fallback. The model follows the code.
- `print` of the exception message when the line items fail. The failure itself is modelled.
- RowClustering.ClusterRows: the rows are not claimed to be independent of the order of the
  input tokens. That is proved only when no two tokens share a top edge; with ties the rows
  can change with input order (see Findings).
- LineItems.ReconcileFields: the dict mutated in place is modelled as a record value that
  the method returns. Python's aliasing of that dict is not modelled.

## Findings

| source | as written | input that shows it | evidently intended | confidence | as-written member | corrected member |
|---|---|---|---|---|---|---|
| process_invoice.py:132 | `[/-年]` and `[/-月]` are character ranges, U+002F to U+5E74 and U+002F to U+6708. They hold every ASCII digit, letter and colon, all hiragana and full-width katakana, and part of the CJK ideographs, so any run of 7 to 10 digits reads as a date | "1250000": year 1250, separator '0', month 0, day 0. The amount is dropped as a date, and its row loses it | a literal `/`, `-` or 年 (then `/`, `-` or 月), with the hyphen escaped or placed last | not executed | TokenFilter.DigitRunsAreDatesAsWritten | TokenFilter.NumberTokensSurvive |
| process_invoice.py:132 | the same ranges leave out '-' (U+002D lies below U+002F), so a hyphenated date is not matched | "2024-01-15" survives the filter and reaches the rows as text | hyphenated dates dropped like slashed ones | not executed | TokenFilter.HyphenDatesKeptAsWritten | TokenFilter.IntendedDropsHyphenDates |
| process_invoice.py:137 | the tokens are sorted by their top edge alone, and the stable sort keeps tied tokens in input order. The running mean of lines 144-151 then sees them in that order, so the rows depend on the order in which the tokens arrive | three tokens with top edge 0 and bottom edges 0, 28 and 56 (centres 0, 14, 28): in the order a, b, d the rows are [a, b], [d]; in the order a, d, b they are [a], [d, b] | rows that do not depend on input order, which holds once no two tokens share a top edge | not executed | RowOrder.ShuffleChangesRows | RowOrder.DistinctTopsGiveSameRows |
