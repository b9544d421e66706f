# taxi-lon receipt pipeline in Dafny

taxi-lon is a web application for Swedish taxi companies. A driver photographs the
taximeter's shift receipt ("skiftrapport"). An OCR service turns it into a loosely typed
record: the organisation number, the car's registration (`regnr`) and taxi number
(`drosknr`), the driver id (`forarid`), the start and end times, kilometre readings, the
number of trips (`turer`), and the VAT ("moms") sections for cash (`kontant_details`),
credit (`kredit_details`), total driven (`total_inkort_details`) and pre-booked or
cancelled trips (`varav_bom_avbest_details`). The application normalises that record,
validates it, and stores it as a shift row with detail rows in a database.

This project models that pipeline, file by file, and proves what each step promises.

- **JavaScript values** (module `Js`). The record is modelled as a JavaScript value:
  undefined, null, booleans, numbers, strings, arrays and objects. A number is `NaN` or
  an exact real. The builtins the code relies on are written out:
  - `Number(...)` and `parseFloat`;
  - truthiness and `x || 0`;
  - `trim`, `split`, `replace`, `toLowerCase`/`toUpperCase` and `padStart(2, '0')`.

  A function that can throw returns a `Completion`: it either returns a value or throws
  a message.
- **VAT reconcilers** (`VatParser`, `VatProcessor`, `VatDetails`, with the shared list
  helpers in `Vat`). These are the two versions of the row filter, the "ensure 6 % and
  25 % rows" completion, section processing and the pruning of a record before it is
  saved. Their differences (AND versus OR positivity, and filtering by rate or not) are
  stated as separate lemmas.
- **OCR normalisation and validation** (`OcrUtils`, `OcrNormalize`, `OcrValidation`,
  `Patterns`). This covers:
  - date-string recognition;
  - the retry loop, with the delays it waits as a sequence;
  - the file-upload check;
  - the total normaliser that falls back to the default template;
  - the short-circuiting record validator.
- **Small rules** (`TripsValidation`, `ReceiptValidation`, `DateTime`, `Formatters`).
  These are the trip-count and kilometre rules and the date-range and date-padding
  formatters.
- **Receipt text parsers** (`ReceiptParser`, `DataParser`). Each is a loop over the
  receipt's lines that fills a record, with invariants tying it to a line-by-line
  specification.
- **Schemas** (`Zod`, `SchemaValidation`, `ShiftValidation`, `ShiftInputValidation`,
  `PaymentValidation`, `BomValidation`, `TotalInkortValidation`, `AuthValidation`,
  `UserValidation`, `RoleValidation`, `UserTransforms`). Each zod schema is modelled as
  the list of issues it reports, together with a predicate that holds exactly when there
  are none.
- **Persistence** (`Store`, `ShiftService`, `ShiftsIndex`, `SaveShift`, `DataService`,
  `ReceiptValidationService`). The database is a `Store.Database` object:
  - tables hold rows;
  - there is a fixed set of failing tables;
  - a log records every read and write.

  Each of the four shift-saving services is a method that performs its lookups,
  duplicate check and inserts in the source's order. It is proved against a
  specification function of the same module, `Save` with its detail `Steps`. Lemmas
  about that function state company scoping, the duplicate check or its absence, the
  detail rows written, and that writes stay in place after a later failure.

## Model

| member | source | states |
|---|---|---|
| VatParser.CleanAmount | src/utils/vat/parser.ts:7-11 | the cleaned text holds only digits, '.' and '-' |
| VatParser.ParseNumber | src/utils/vat/parser.ts:3-15 | a number is returned as it is; anything else gives a finite number (NaN becomes 0), and a falsy value gives 0 |
| VatParser.IsValidVatRate | src/utils/vat/parser.ts:17-21 | true exactly for the numbers 6 and 25 |
| VatParser.IsNonZeroVatDetail | src/utils/vat/parser.ts:23-29 | true exactly when gross AND net parse to positive numbers, which only an object's fields can |
| VatParser.ValidateVatDetail | src/utils/vat/parser.ts:31-41 | true exactly for an object whose parsed rate is 6 or 25 and whose gross and net are both positive; null, undefined and non-objects fail |
| VatParser.FilterValid | src/utils/vat/parser.ts:50-57 | at most as many rows as elements, each with rate 6 or 25 and positive gross and net |
| VatParser.FilterValidVatDetails | src/utils/vat/parser.ts:43-61 | a non-array gives no rows; otherwise at most one row per element, each valid and with finite rate, gross and net |
| VatParser.MapCoerce | src/utils/vat/parser.ts:52-57 | one row per element, each the element's four fields passed through `parseNumber` |
| VatParser.FilterValidIsFilterThenMap | src/utils/vat/parser.ts:50-57 | the result is the order-keeping filter by `validateVatDetail` followed by the coercion |
| VatParser.FilterValidConcat | src/utils/vat/parser.ts:50-57 | filtering two runs gives the two filtered runs in order |
| VatParser.ValidRowRoundTrip | src/utils/vat/parser.ts:31-41 | a valid row written back as an object passes again and coerces to itself |
| VatParser.FilterValidIdempotent | src/utils/vat/parser.ts:50-57 | valid rows written back as objects come out unchanged |
| VatParser.FilterValidVatDetailsIdempotent | src/utils/vat/parser.ts:43-61 | filtering the filter's own output changes nothing |
| VatParser.ParseNumberSwedishAmount | src/utils/vat/parser.ts:3-15 | "1 234,50 kr"-shaped text (spaced digit groups, a decimal comma, " kr") reads as the amount it denotes |
| VatParser.CleanSwedishAmount | src/utils/vat/parser.ts:7-11 | such text cleans to the digits, '.', and the fraction digits |
| VatParser.SwedishAmountExample | src/utils/vat/parser.ts:3-15 | "1 234,50 kr" reads as 1234.5 |
| VatParser.ParseNumberDecimalComma | src/utils/vat/parser.ts:3-15 | digits, a comma and digits read as the decimal number |
| VatParser.CleanDecimalComma | src/utils/vat/parser.ts:7-11 | the comma of such text is turned into '.' and nothing else changes |
| VatParser.DecimalCommaExample | src/utils/vat/parser.ts:3-15 | "12,50" reads as 12.5 |
| VatParser.ParseNumberNoDigit | src/utils/vat/parser.ts:3-15 | non-empty text without a digit reads as 0 |
| VatProcessor.SectionValue | src/utils/vat/processor.ts:21-23 | the section written back is an object whose only key is `moms_details` |
| VatProcessor.ProcessVatSection | src/utils/vat/processor.ts:5-24 | nothing exactly when the section has no valid row (a missing or falsy `moms_details` has none); otherwise the valid rows |
| VatProcessor.ProcessTotalInkort | src/utils/vat/processor.ts:26-47 | a result exactly when there are valid rows and the parsed total is not zero or negative; it holds exactly `moms_details` (the valid rows) and `total_inkort` (the parsed total) |
| VatProcessor.PrepareSection | src/utils/vat/processor.ts:54-84 | one pass of the loop: the section is replaced by its processed form, or deleted |
| VatProcessor.PrepareVatDetailsForSave | src/utils/vat/processor.ts:49-89 | the loop over the four sections computes the prepared copy |
| VatProcessor.PrepareKeepsOtherKeys | src/utils/vat/processor.ts:51 | keys other than the four sections are copied unchanged |
| VatProcessor.PreparedSection | src/utils/vat/processor.ts:54-84 | a section survives exactly when it was present, has valid rows and (for the total section) a total that is not zero or negative (a NaN total is kept); it then holds only `moms_details` (and `total_inkort`) |
| VatProcessor.ProcessSectionIdempotent | src/utils/vat/processor.ts:5-47 | processing a processed section again gives it back |
| VatProcessor.PrepareIdempotent | src/utils/vat/processor.ts:49-89 | preparing prepared data again changes nothing |
| VatProcessor.EnsureDefaultVatRates | src/utils/vat/processor.ts:91-105 | the result always has rate 6 and rate 25, keeps every row with an amount, and equals the filtered, completed, sorted rows |
| VatProcessor.DefaultRowsMissing | src/utils/vat/processor.ts:97-102 | a zero row is added for 6 and for 25 exactly when that rate is absent, 6 before 25 |
| VatProcessor.DefaultRatesComplete | src/utils/vat/processor.ts:91-105 | rates 6 and 25 are both present in the result |
| VatProcessor.DefaultRatesKeepRows | src/utils/vat/processor.ts:92 | every row with a positive gross or net is kept, whatever its rate |
| VatProcessor.DefaultRatesOnlyAddMissing | src/utils/vat/processor.ts:92-102 | every result row is a kept input row or the zero row of a missing default rate |
| VatProcessor.DefaultRatesSorted | src/utils/vat/processor.ts:104 | with numeric rates the result is in ascending rate order |
| VatProcessor.DefaultRatesIdempotent | src/utils/vat/processor.ts:91-105 | with numeric rates a second pass changes nothing |
| VatProcessor.DefaultRatesExample | src/utils/vat/processor.ts:91-105 | a breakdown with a 6 % row and a zero 25 % row is returned as it is |
| VatProcessor.DefaultRatesKeepOtherRate | src/utils/vat/processor.ts:92 | a 12 % row with an amount survives |
| VatDetails.ParseNumber | src/utils/vatDetails.ts:16-21 | a number is returned as it is; anything else gives a finite number, and a falsy value gives 0 |
| VatDetails.ParseNumberDropsComma | src/utils/vatDetails.ts:19 | the comma is stripped before it could become a point: digits ',' digits reads as the digits run together |
| VatDetails.CleanDropsComma | src/utils/vatDetails.ts:19 | the cleaning leaves no comma for the replace to act on |
| VatDetails.CommaExample | src/utils/vatDetails.ts:16-21 | "12,50" reads as 1250 |
| VatDetails.IsRelevantVatDetail | src/utils/vatDetails.ts:23-31 | true exactly for an object whose parsed rate is 6 or 25 and whose parsed gross OR net is positive |
| VatDetails.FilterRelevantVatDetails | src/utils/vatDetails.ts:33-36 | a non-array gives nothing; every kept element is relevant |
| VatDetails.FilterRelevantRows | src/utils/vatDetails.ts:33-36 | the result is the order-keeping filter of the array by `isRelevantVatDetail` |
| VatDetails.DefaultRowsMissing | src/utils/vatDetails.ts:44-60 | a zero row is added for 6 and for 25 exactly when that rate is absent, 6 before 25 |
| VatDetails.EnsureVatRates | src/utils/vatDetails.ts:38-63 | the result equals the filtered, completed, sorted rows and holds rates 6 and 25 |
| VatDetails.VatRatesComplete | src/utils/vatDetails.ts:38-63 | rates 6 and 25 are both present |
| VatDetails.VatRatesPreserveRelevant | src/utils/vatDetails.ts:38-63 | every relevant input row is kept, and every result row is a relevant input row or the zero row of a missing default rate |
| VatDetails.VatRatesOnlyAllowedRates | src/utils/vatDetails.ts:30-60 | every result row has rate 6 or 25 |
| VatDetails.ZeroRowSettled | src/utils/vatDetails.ts:45-59 | an added zero row has a numeric rate and is not relevant itself |
| VatDetails.VatRatesSorted | src/utils/vatDetails.ts:62 | with numeric rates the result is in ascending rate order |
| VatDetails.VatRatesIdempotent | src/utils/vatDetails.ts:38-63 | with numeric rates a second pass changes nothing |
| VatDetails.NormaliseRows | src/utils/vatDetails.ts:74-79 | one row per kept detail, each with its four fields passed through `parseNumber` |
| VatDetails.ProcessVatSection | src/utils/vatDetails.ts:65-81 | nothing exactly when no detail is relevant; otherwise the section's other keys unchanged and `moms_details` the normalised relevant rows |
| VatDetails.PrepareSection | src/utils/vatDetails.ts:92-112 | one pass of the loop: the section is replaced by its processed form, or deleted |
| VatDetails.PrepareVatDetailsForSave | src/utils/vatDetails.ts:83-115 | the loop over the four sections computes the prepared copy |
| VatDetails.PrepareKeepsOtherKeys | src/utils/vatDetails.ts:84 | keys other than the four sections are copied unchanged |
| VatDetails.PreparedSection | src/utils/vatDetails.ts:92-112 | a section survives exactly when it has a relevant row and (for the total section) a positive total |
| VatDetails.ValidImpliesRelevant | src/utils/vatDetails.ts:23-31 | on numeric fields, a row that `utils/vat` accepts is relevant here too |
| VatDetails.OrIsNotAnd | src/utils/vatDetails.ts:30 | a row with gross but no net is relevant here and rejected by `utils/vat` |
| VatDetails.ParseNumbersDiffer | src/utils/vatDetails.ts:19 | the two `parseNumber`s read "12,50" as 12.5 and 1250 |
| VatDetails.RateFilterDiffers | src/utils/vatDetails.ts:39 | a 12 % row survives `utils/vat`'s `ensureDefaultVatRates` and is dropped here |
| VatDetails.NaNTotalDiffers | src/utils/vatDetails.ts:97-98 | a NaN total keeps the section in `utils/vat` and deletes it here |
| DateTime.ValidateDateRange | src/utils/dateTime.ts:4-15 | false when either end is empty; otherwise true exactly when the start equals the end or comes before it in string order |
| DateTime.ValidateDateRangeOrder | src/utils/dateTime.ts:4-15 | an empty endpoint fails; a non-empty time is in range with itself; ranges chain; of two non-empty times one is in range with the other |
| DateTime.FormatDateTime | src/utils/dateTime.ts:17-36 | "" gives ""; a canonical "YYYY-MM-DD HH:mm" string is returned as it is; otherwise the result is the input or its padded reassembly |
| DateTime.FormatDateTimeForDB | src/utils/dateTime.ts:38-59 | "" throws "Date string is required"; a canonical string is returned; a result agrees with `formatDateTime`; any other throw comes from a missing piece and reads "Cannot read properties of undefined (reading 'split')" without a time part, "(reading 'padStart')" without a month, day or minute |
| DateTime.FormatValueForDB | src/utils/dateTime.ts:38-41 | a falsy value throws "Date string is required"; a string is formatted as `formatDateTimeForDB` does |
| DateTime.ReassembleParts | src/utils/dateTime.ts:27-31 | date and time parts split on ' ', '-' and ':' are reassembled with padding |
| DateTime.CanonicalReassembles | src/utils/dateTime.ts:21-31 | reassembling a canonical string gives it back |
| DateTime.FormatDateTimePads | src/utils/dateTime.ts:17-59 | month, day, hour and minute are padded to two places, the year as it is, by both formatters |
| DateTime.FormatDateTimeIdempotent | src/utils/dateTime.ts:17-36 | formatting the formatter's output changes nothing |
| DateTime.FormatDateTimeForDBIdempotent | src/utils/dateTime.ts:38-59 | formatting a successful result again gives it back |
| DateTime.NoTimePart | src/utils/dateTime.ts:25-58 | a string without a space is returned by `formatDateTime` and makes `formatDateTimeForDB` throw the error of reading `split` of undefined |
| DateTime.MissingDay | src/utils/dateTime.ts:50-54 | a string with a time part whose date has only a year and a month makes the DB formatter throw the error of reading `padStart` of undefined |
| DateTime.FormatExample | src/utils/dateTime.ts:17-41 | "2024-1-5 8:03" becomes "2024-01-05 08:03"; "" gives "" and makes the DB formatter throw |
| Formatters.FormatDateTime | src/utils/formatters.ts:19-34 | "" gives ""; otherwise the input or a padded reassembly |
| Formatters.SameAsDateTimeFormatter | src/utils/formatters.ts:19-34 | it agrees with `formatDateTime` of src/utils/dateTime.ts on every input |
| Formatters.FormatPads | src/utils/formatters.ts:26-29 | month, day, hour and minute are padded to two places |
| Formatters.NoTimeUnchanged | src/utils/formatters.ts:23-24 | a string without a space is returned unchanged |
| Formatters.FormatIdempotent | src/utils/formatters.ts:19-34 | formatting its own output changes nothing |
| OcrUtils.FormatGroups | src/services/ocr/utils.ts:18-23 | the four patterns capture year-first with 1-2 digit fields, day-first (slash and dash) with a 4-digit year third, and the compact form with 2-digit fields; five groups each |
| OcrUtils.NormalizedDateTime | src/services/ocr/utils.ts:8-38 | a falsy or non-string value gives ""; a trimmed canonical string is returned as it is |
| OcrUtils.NormalizeDateTime | src/services/ocr/utils.ts:8-38 | the loop over the four patterns returns what the first matching pattern assembles, or "" |
| OcrUtils.NormalizedShape | src/services/ocr/utils.ts:8-38 | the result is "", a canonical "YYYY-MM-DD HH:mm" string, or a day-first "DD-MM-YYYY HH:mm" string (the day-first patterns put the day where the year goes) |
| OcrUtils.DayFirstFixed | src/services/ocr/utils.ts:20-29 | a day-first result is normalised to itself |
| OcrUtils.CanonicalFixed | src/services/ocr/utils.ts:14-16 | a canonical string is normalised to itself |
| OcrUtils.NormalizeDateTimeIdempotent | src/services/ocr/utils.ts:8-38 | normalising a result again gives it back |
| OcrUtils.YearFirstNormalized | src/services/ocr/utils.ts:19-29 | "Y-M-D H:M" with 1-2 digit fields becomes the padded canonical string |
| OcrUtils.SlashNormalized | src/services/ocr/utils.ts:20-29 | "DD/MM/YYYY H:M" becomes "DD-MM-YYYY HH:MM", which is day-first and not canonical |
| OcrUtils.SlashSkipsYearFirst | src/services/ocr/utils.ts:19-20 | a slash date never matches the year-first pattern |
| OcrUtils.Backoff | src/services/ocr/utils.ts:53-56 | one delay per retry, the i-th being `baseDelay * 2^i` |
| OcrUtils.BackoffNext | src/services/ocr/utils.ts:53-56 | one more failed attempt appends the next doubled delay |
| OcrUtils.FirstSuccess | src/services/ocr/utils.ts:47-58 | the first successful attempt below the limit, all earlier ones failing; none when every attempt fails |
| OcrUtils.WithRetry | src/services/ocr/utils.ts:40-61 | on the first success: its value, that many calls and the delays before it; otherwise `retries` calls, one delay fewer, and the last error (undefined when no attempt ran) |
| OcrUtils.RetryBounds | src/services/ocr/utils.ts:47-56 | a success happens within the retries, and each delay doubles the previous one |
| OcrUtils.ValidateFile | src/services/ocr/utils.ts:63-73 | accepted exactly when at most 10 MB and JPEG, PNG or WebP; size is checked before type, each with its own message |
| OcrNormalize.NormalizeNumber | src/services/ocr/normalize.ts:74-87 | a finite number is returned as it is; NaN, a non-number non-string and unreadable text give 0 |
| OcrNormalize.NormalizeNumberAsParseNumber | src/services/ocr/normalize.ts:74-87 | on strings and finite numbers it agrees with `parseNumber` of src/utils/vatDetails.ts; on NaN that one gives NaN and this one 0 |
| OcrNormalize.EmptyStringNumber | src/services/ocr/normalize.ts:78-86 | the empty string gives 0 in both cleaners |
| OcrNormalize.StringNumber | src/services/ocr/normalize.ts:78-86 | on non-empty text it agrees with `parseNumber` of src/utils/vatDetails.ts |
| OcrNormalize.NormalizeNumberComma | src/services/ocr/normalize.ts:80 | "12,50" gives 1250, because the comma is stripped before it is replaced |
| OcrNormalize.NormalizeNumberIdempotent | src/services/ocr/normalize.ts:74-87 | normalising a normalised number changes nothing |
| OcrNormalize.NormalizeVatDetail | src/services/ocr/normalize.ts:105-121 | a non-object gives the zero 25 % row; otherwise the amounts are normalised and the rate is the normalised rate, or 25 when that is 0 |
| OcrNormalize.UnreadableRateIs25 | src/services/ocr/normalize.ts:116 | a missing, NaN, zero or unreadable rate becomes 25 |
| OcrNormalize.NormalizeRows | src/services/ocr/normalize.ts:99-101 | a non-array or empty array gives the template rows; otherwise one normalised row per element |
| OcrNormalize.NormalizeRowsPopulated | src/services/ocr/normalize.ts:99-121 | with non-empty template rows the result is non-empty, and no row has rate 0 |
| OcrNormalize.NormalizeVatSection | src/services/ocr/normalize.ts:89-103 | a non-object gives the passed total and the template rows; otherwise the rows are normalised |
| OcrNormalize.SectionAmountOnly | src/services/ocr/normalize.ts:91-102 | the section's only amount key is `amount` |
| OcrNormalize.SectionAmountFallback | src/services/ocr/normalize.ts:92-98 | without a section amount the top-level total is used |
| OcrNormalize.NormalizeTotalInkort | src/services/ocr/normalize.ts:123-134 | a non-object gives the template; otherwise the normalised `total_inkort` and rows |
| OcrNormalize.NormalizeBomDetails | src/services/ocr/normalize.ts:136-146 | a non-object gives the template; otherwise only the normalised rows |
| OcrNormalize.TextField | src/services/ocr/normalize.ts:16-25 | the result is trimmed; a falsy field gives the trimmed template value; a string field gives itself trimmed |
| OcrNormalize.WithSections | src/services/ocr/normalize.ts:34-54 | the four section assignments change no top-level field and set each section from its own normaliser |
| OcrNormalize.NormalizedOcr | src/services/ocr/normalize.ts:6-11 | a falsy or non-object argument gives the template |
| OcrNormalize.NormalizeOcrData | src/services/ocr/normalize.ts:6-72 | the record built field by field and then section by section is the normalised record |
| OcrNormalize.TopLevelOf | src/services/ocr/normalize.ts:14-31 | the numeric and text fields are the ones built before the sections |
| OcrNormalize.TimesOf | src/services/ocr/normalize.ts:19-20 | the two times are the ones built before the sections |
| OcrNormalize.TextFieldsTrimmed | src/services/ocr/normalize.ts:16-25 | the text fields are trimmed and `regnr` has no lower-case ASCII letter |
| OcrNormalize.TextOf | src/services/ocr/normalize.ts:16-25 | each text field is the trimmed field or template value, `regnr` upper-cased |
| OcrNormalize.TemplateText | src/services/ocr/config.ts:15-24 | the template's text values are trimmed, and "ABC123" is already upper case |
| OcrNormalize.TextFieldsFallback | src/services/ocr/normalize.ts:16-25 | a falsy field gives the template value: "000000-0000", "ABC123", "00000", "0000", "00000" |
| OcrNormalize.TimesNormalised | src/services/ocr/normalize.ts:19-20 | the times are `starttid`, else `start_time`, else now, passed through `normalizeDateTime`, so each is "", canonical or day-first |
| OcrNormalize.SectionsPopulated | src/services/ocr/normalize.ts:34-54 | every section of the result has rows, none with rate 0 |
| OcrNormalize.CashSectionOf | src/services/ocr/normalize.ts:34-38 | the cash section falls back to the normalised `kontant` |
| OcrNormalize.CreditSectionOf | src/services/ocr/normalize.ts:40-44 | the credit section falls back to the normalised `total_kredit` |
| OcrNormalize.OtherSectionsOf | src/services/ocr/normalize.ts:46-54 | the total and bom sections come from their own normalisers |
| OcrNormalize.SectionKeysRenamed | src/services/ocr/normalize.ts:91-102 | a normalised cash or credit section has `amount` where the template has `kontant` or `kredit` |
| OcrNormalize.NumbersNormalised | src/services/ocr/normalize.ts:21-30 | each numeric field is its finite number as it is, or 0 when it is neither a number nor a string |
| OcrValidation.Falsy | src/services/ocr/validation.ts:19 | exactly the listed fields whose value is falsy, so empty exactly when all are truthy |
| OcrValidation.FirstFailing | src/services/ocr/validation.ts:31-52 | None exactly when every field passes; otherwise a listed field that fails |
| OcrValidation.FirstFailingIsFirst | src/services/ocr/validation.ts:31-52 | the field reported is the first failing one in list order |
| OcrValidation.ValidateVatDetail | src/services/ocr/validation.ts:92-103 | reading a field of undefined or null throws; otherwise true exactly when the four amounts are non-NaN numbers |
| OcrValidation.RowsValid | src/services/ocr/validation.ts:56-64 | all rows pass exactly when each row's check returns true |
| OcrValidation.SectionValid | src/services/ocr/validation.ts:55-77 | a section without truthy rows passes; a row array is checked row by row |
| OcrValidation.ValidatedExtracted | src/services/ocr/validation.ts:17-90 | a valid result is exactly `{ isValid: true, message: 'All data är giltig' }` with no field list |
| OcrValidation.Verdict | src/services/ocr/validation.ts:21-82 | valid exactly when nothing is missing, no number or date is bad and both sections pass |
| OcrValidation.ValidIffAcceptable | src/services/ocr/validation.ts:17-90 | a record passes exactly when every required field is truthy, the numeric fields are numbers, the times match the pattern and all cash and credit rows are valid |
| OcrValidation.MissingReportedTogether | src/services/ocr/validation.ts:19-27 | every falsy required field is listed in one invalid result, a zero included |
| OcrValidation.NumberReportedAlone | src/services/ocr/validation.ts:30-39 | with all required fields present, the first bad numeric field is reported alone |
| OcrValidation.FalsyAgree | src/services/ocr/validation.ts:19 | the falsy list depends only on the listed fields |
| OcrValidation.FirstFailingAgree | src/services/ocr/validation.ts:31-52 | the first failing field depends only on the listed fields |
| OcrValidation.UncheckedKey | src/services/ocr/validation.ts:17-90 | changing a key no check reads leaves the result unchanged |
| OcrValidation.AgreeOn | src/services/ocr/validation.ts:17-90 | setting a key outside a field list leaves every listed field as it was |
| OcrValidation.SectionsAgree | src/services/ocr/validation.ts:55-77 | changing a key other than the two sections leaves both section checks unchanged |
| OcrValidation.SameVerdict | src/services/ocr/validation.ts:17-90 | two records with the same outcome for every check get the same result |
| OcrValidation.UncheckedSections | src/services/ocr/validation.ts:54-77 | the total and bom sections are never checked |
| OcrValidation.IndexOf | src/services/ocr/validation.ts:107 | the first position of a character, None when it is absent |
| OcrValidation.LastIndexOf | src/services/ocr/validation.ts:107 | the last position of a character, None when it is absent |
| OcrValidation.BraceSpan | src/services/ocr/validation.ts:107 | the greedy match is the text from the first `{` of the input to its last `}`; it is present exactly when some `{` comes before some `}` |
| OcrValidation.ValidateJsonResponse | src/services/ocr/validation.ts:105-116 | true exactly when a brace span exists and it parses |
| TripsValidation.ValidateTrips | src/utils/validation/tripsValidation.ts:3-8 | true exactly for a count with 0 < t <= 35, and for NaN, which fails both comparisons |
| TripsValidation.NormalizeTrips | src/utils/validation/tripsValidation.ts:10-21 | more than 35 or at most 0 gives 0; a valid count is kept; the result is 0 or valid |
| TripsValidation.ValidTripsRange | src/utils/validation/tripsValidation.ts:3-8 | a finite count is valid exactly when 0 < t <= 35 |
| TripsValidation.NormalizeTripsIdempotent | src/utils/validation/tripsValidation.ts:10-21 | normalising twice is normalising once; a count is kept exactly when it is valid or 0 |
| TripsValidation.NaNTrips | src/utils/validation/tripsValidation.ts:3-21 | NaN passes both comparisons, so it is valid and kept |
| ReceiptValidation.ValidateKilometers | src/utils/receiptValidation.ts:8-19 | valid exactly when taxi km is not less than paid km, with the fixed message when valid and the formatted one otherwise |
| ReceiptValidation.KilometerCases | src/utils/receiptValidation.ts:8-19 | equal distances pass; finite distances pass exactly when taxi >= paid; NaN on either side passes |
| ReceiptValidation.KilometerMessageExample | src/utils/receiptValidation.ts:12 | 50 against 80 gives the message naming "50" and "80" |
| ReceiptParser.VatLineHasColon | src/utils/receiptParser.ts:41-42 | a line that matches the rate pattern holds a ':' |
| ReceiptParser.SplitHasSeparator | src/utils/receiptParser.ts:54-55 | a line holding ':' splits into a key and at least one value part |
| ReceiptParser.CollapseSpaces | src/utils/receiptParser.ts:63 | the result holds no white space |
| ReceiptParser.CollapseNoSpace | src/utils/receiptParser.ts:63 | a prefix without white space is kept as it is in front of what the rest collapses to |
| ReceiptParser.CollapseRun | src/utils/receiptParser.ts:63 | a word followed by a run of one or more white-space characters becomes the word and one '_', and collapsing goes on after the run |
| ReceiptParser.CollapseLeadingRun | src/utils/receiptParser.ts:63 | a leading run of one or more white-space characters becomes one '_' |
| ReceiptParser.CleanKeyShape | src/utils/receiptParser.ts:60-63 | a cleaned key holds no '.' and no white space |
| ReceiptParser.OrgNrKey | src/utils/receiptParser.ts:60-79 | the label "Org. nr" becomes the key `org_nr` |
| ReceiptParser.DriverIdKey | src/utils/receiptParser.ts:60-79 | the label "Förarid" becomes the key `driver_id` |
| ReceiptParser.RenameWhole | src/utils/receiptParser.ts:64-79 | a rename whose pattern is the whole key replaces it |
| ReceiptParser.ParseReceipt | src/utils/receiptParser.ts:31-127 | the line-by-line loop followed by the schema step returns what the line-by-line specification collects and the schema decides |
| ReceiptParser.ScanOneMore | src/utils/receiptParser.ts:36-87 | collecting one more line is one more step on what was collected |
| ReceiptParser.BlankLineSkipped | src/utils/receiptParser.ts:37-38 | a blank or white-space-only line changes nothing |
| ReceiptParser.NoColonLineSkipped | src/utils/receiptParser.ts:54-55 | a line without ':' changes nothing |
| ReceiptParser.BlankLinesIgnored | src/utils/receiptParser.ts:36-38 | removing the blank lines does not change what is collected |
| ReceiptParser.SplitThree | src/utils/receiptParser.ts:43 | three space-free amounts with single spaces split into three |
| ReceiptParser.RateLine | src/utils/receiptParser.ts:41 | digits, '.', digits then ':' make a VAT line |
| ReceiptParser.RateValue | src/utils/receiptParser.ts:42-45 | the rate text reads as its decimal value |
| ReceiptParser.SplitOnce | src/utils/receiptParser.ts:42 | a line with exactly one ':' splits into the text before and after it |
| ReceiptParser.AmountsPart | src/utils/receiptParser.ts:42-43 | the amounts after ": " split into three |
| ReceiptParser.EntryOfParts | src/utils/receiptParser.ts:42-49 | a VAT line with one ':' reads the rate before it and the amounts after it |
| ReceiptParser.VatLineEntry | src/utils/receiptParser.ts:41-49 | a line "6.00: g n v" is a VAT line whose entry is the decimal rate and the three amounts as `parseFloat` reads them |
| ReceiptParser.KeyValueLine | src/utils/receiptParser.ts:54-86 | a "key: value" line stores the trimmed value, further ':' kept, under the normalised key and leaves the VAT entries alone |
| ReceiptParser.CommaAmount | src/utils/receiptParser.ts:82-83 | "12,50 kr" is an amount and reads as 12.5 |
| ReceiptParser.FractionAmountText | src/utils/receiptParser.ts:82 | digits, a decimal mark, digits and an empty or "kr" tail match the amount pattern |
| ReceiptParser.DotAmount | src/utils/receiptParser.ts:82-83 | "12.50" is an amount and reads as 1250, because the dot is removed before reading |
| ReceiptParser.EntryIssues | src/utils/receiptParser.ts:17-22 | one VAT entry has no failing path exactly when its rate is finite and its amounts are non-NaN numbers |
| ReceiptParser.VatIssues | src/utils/receiptParser.ts:17-22 | no VAT entry fails exactly when each entry has no failing path |
| ReceiptParser.Finish | src/utils/receiptParser.ts:91-126 | throws exactly when the schema finds issues, with the message listing every failing path |
| ReceiptParser.Defaults | src/utils/receiptParser.ts:93-116 | a missing `lonegr_ex_moms` and a falsy `cash` or `to_report` become 0 |
| ReceiptParser.FailingFieldReported | src/utils/receiptParser.ts:100-123 | a field that fails its schema type makes the parse throw and its path is in the message's list |
| ReceiptParser.FailingEntryReported | src/utils/receiptParser.ts:17-123 | a VAT entry with an unreadable value makes the parse throw |
| ReceiptParser.ParsedRows | src/utils/receiptParser.ts:89-118 | on success there is one VAT row per VAT line, holding that line's own numbers |
| ReceiptParser.RowOfValid | src/utils/receiptParser.ts:17-22 | a valid entry's row holds the entry's own numbers |
| DataParser.KeyOf | src/utils/dataParser.ts:41-43 | the key keeps its length; each white-space character becomes one '_' and every other character is lower-cased |
| DataParser.Finish | src/utils/dataParser.ts:49-55 | a parsed record always has an empty `vat_details` |
| DataParser.ParseExtractedText | src/utils/dataParser.ts:30-56 | the line-by-line loop followed by the schema step returns what the line-by-line specification collects and the schema decides |
| DataParser.FinishFailsIff | src/utils/dataParser.ts:11-55 | the parse fails exactly when some schema field fails, and every failing field's path is reported |
| DataParser.SecondColonCuts | src/utils/dataParser.ts:37 | only the first two pieces count: "Start: 08:30" stores "08" |
| DataParser.EmptyPartSkipped | src/utils/dataParser.ts:37-38 | a line without ':' or with an empty key or value leaves the record as it is |
| DataParser.KeysNormalised | src/utils/dataParser.ts:36-46 | every stored key is non-empty and holds no white space |
| DataParser.DecimalValueStored | src/utils/dataParser.ts:40-41 | a value of digits, '.', digits is stored as its number |
| DataParser.DecimalEntry | src/utils/dataParser.ts:37-41 | a numeric value text gives the entry of the normalised key and the parsed number |
| DataParser.KeyValueParts | src/utils/dataParser.ts:37 | a line "key: v" with one ':' splits into the key and " v" |
| DataParser.TextValueStored | src/utils/dataParser.ts:42-43 | a value beyond the number pattern is stored as text |
| DataParser.DigitsInTextFieldRejected | src/utils/dataParser.ts:12-55 | a text field whose line holds only digits is stored as a number, so the parse fails on that field |
| DataParser.DigitsStored | src/utils/dataParser.ts:36-46 | the last line "key: digits" leaves the number under the key |
| DataParser.TextFieldNumberRejected | src/utils/dataParser.ts:11-55 | a number under a text field of the schema makes the parse fail on that path |
| DataParser.OrgNrKey | src/utils/dataParser.ts:41 | the label "Org nr" becomes `org_nr` |
| Zod.Issues | src/services/validation/shiftValidation.ts:10-25 | the failing keys of an object shape, in shape order: empty exactly when every key passes, and every failing key is reported |
| Zod.FieldReported | src/services/validation/shiftValidation.ts:10-25 | a key that fails is reported |
| Zod.FieldAccepted | src/services/validation/shiftValidation.ts:10-25 | when nothing is reported, every key passes |
| Zod.ObjectIssues | src/services/validation/shiftValidation.ts:26-38 | a nested object has no issue exactly when it conforms to its shape |
| Zod.ElementIssues | src/services/validation/shiftValidation.ts:27 | the elements have no issue exactly when each conforms |
| Zod.ArrayIssues | src/services/validation/bomValidation.ts:20 | an array schema has no issue exactly when the value is an array whose every element conforms |
| Zod.Stripped | src/services/validation/shiftValidation.ts:43-45 | a parsed object keeps exactly the shape's keys that the value has |
| Zod.DetailOf | src/services/validation/paymentValidation.ts:3-8 | a conforming VAT detail parses to a detail with non-negative amounts |
| Zod.DetailRoundTrip | src/services/validation/paymentValidation.ts:3-8 | a detail passes exactly when its amounts are non-negative, and parsing its object gives it back |
| Zod.ConformsDetail | src/services/validation/paymentValidation.ts:3-8 | a VAT detail conforms exactly when it is an object whose four amounts are non-negative numbers |
| Zod.MapAll | src/services/validation/totalInkortValidation.ts:28-38 | every element's result in order when all pass, otherwise the failure of an element |
| Zod.FirstFailure | src/services/validation/totalInkortValidation.ts:28-38 | a failed map stops at the first failing element, with that element's outcome |
| SchemaValidation.NumberSchema | src/utils/validation.ts:4-19 | a finite number passes as itself; null and undefined give 0; NaN, booleans, arrays and objects fail; a string passes when it reads as a finite number after its first ',' becomes '.' |
| SchemaValidation.NonNegativeSchema | src/utils/validation.ts:34-36 | passes exactly when the number schema passes with a value >= 0, giving that value |
| SchemaValidation.PositiveSchema | src/utils/validation.ts:38-40 | passes exactly when the number schema passes with a value > 0, giving that value |
| SchemaValidation.VatDetailsSchema | src/utils/validation.ts:42-47 | passes exactly for an object whose four fields pass the non-negative schema; the parsed amounts are non-negative |
| SchemaValidation.VatDetailsList | src/utils/validation.ts:52 | passes exactly when every element passes, giving the parsed elements in order |
| SchemaValidation.PaymentDetailsSchema | src/utils/validation.ts:49-53 | a passing payment is an object whose `kontant` and `kredit` are their parsed, non-negative values, and whose details are [] when absent and the parsed rows of the array otherwise |
| SchemaValidation.DecimalComma | src/utils/validation.ts:7 | "12,5" reads as 12.5 |
| SchemaValidation.DecimalNumber | src/utils/validation.ts:7 | digits, '.', digits read as their decimal value |
| SchemaValidation.WholeDecimal | src/utils/validation.ts:7 | a trimmed text that is one decimal literal throughout reads as that literal's value |
| SchemaValidation.EmptyStringIsZero | src/utils/validation.ts:7-15 | the empty string reads as 0 and passes |
| SchemaValidation.NumberSchemaStable | src/utils/validation.ts:4-19 | a passing value's number passes again as itself |
| SchemaValidation.PositiveIsNonNegative | src/utils/validation.ts:34-40 | every positive value is non-negative; a non-negative value other than 0 is positive; 0 is not positive |
| SchemaValidation.MissingDetailFieldsAreZero | src/utils/validation.ts:17-47 | an empty object is a VAT detail of zeros |
| SchemaValidation.PaymentDefaults | src/utils/validation.ts:49-53 | an empty object is a payment of zeros with no details |
| SchemaValidation.PaymentDetailsIff | src/utils/validation.ts:49-53 | a payment passes exactly when both amounts pass and its details are absent or an array of passing details; it then holds the parsed amounts, and either no details or each element's parsed row at the same index |
| ShiftInputValidation.ValidateShiftInput | src/services/shifts/validation.ts:23-45 | throws exactly when the input is null or undefined; otherwise the schema decides on the coerced record |
| ShiftInputValidation.CoercedToNumbers | src/services/shifts/validation.ts:25-35 | each coerced field is `Number(x) \|\| 0`, so a NaN value becomes 0 |
| ShiftInputValidation.TripsField | src/services/shifts/validation.ts:11-14 | the schema checks `trips` with `validateTrips` |
| ShiftInputValidation.ZeroTripsRejected | src/services/shifts/validation.ts:11-29 | a missing, unreadable or zero trip count is rejected on `trips` |
| ShiftInputValidation.ValidInputBounds | src/services/shifts/validation.ts:4-21 | a valid input holds non-negative amounts, 1..35 trips, a non-empty report number and two UUIDs |
| ShiftInputValidation.PaymentRows | src/services/shifts/validation.ts:65-70 | the details convert exactly when none is null or undefined, one row per detail holding `Number` of each field |
| ShiftInputValidation.ValidatePaymentDetails | src/services/shifts/validation.ts:47-72 | null for a falsy or non-object value, a falsy amount or non-array details; otherwise the amount and the converted rows; throws exactly when some detail is null or undefined |
| ShiftInputValidation.HasPaymentDetails | src/services/shifts/validation.ts:74-83 | true exactly for an object whose `moms_details` is a non-empty array |
| ShiftInputValidation.HasPaymentDetailsIff | src/services/shifts/validation.ts:74-83 | holds exactly for an object with a non-empty array of details |
| ShiftInputValidation.PaymentKept | src/services/shifts/validation.ts:56-72 | a payment with details and a truthy amount is returned with every detail when none is missing |
| ShiftValidation.SectionIssues | src/services/validation/shiftValidation.ts:26-38 | an optional section has no issue exactly when it is absent or valid |
| ShiftValidation.ShiftIssues | src/services/validation/shiftValidation.ts:10-39 | no issue exactly when the value is an object whose declared fields and present sections pass |
| ShiftValidation.WithSection | src/services/validation/shiftValidation.ts:26-45 | the parsed record gains the section exactly when the input has it, other keys unchanged |
| ShiftValidation.ValidateShiftData | src/services/validation/shiftValidation.ts:43-45 | never throws anything but zod's rejection; valid exactly when the object's fields and present sections pass |
| ShiftValidation.SectionsOptional | src/services/validation/shiftValidation.ts:26-38 | without any section only the top-level fields decide |
| ShiftValidation.NegativeDetailRejected | src/services/validation/shiftValidation.ts:3-38 | a negative amount in a detail of a present section rejects the shift |
| ShiftValidation.NumericTextRejected | src/services/validation/shiftValidation.ts:18 | `turer` holding a string is rejected; numbers are not coerced |
| ShiftValidation.ParsedKeepsFields | src/services/validation/shiftValidation.ts:10-45 | a valid shift keeps every declared field as given and no other key |
| ShiftValidation.ParsedSection | src/services/validation/shiftValidation.ts:26-38 | a valid shift holds each VAT section exactly when the input has one, and then holds it as parsed: its declared scalar fields and its `moms_details`, each reduced to the four declared fields |
| PaymentValidation.PaymentIssues | src/services/validation/paymentValidation.ts:10-13 | no issue exactly when the value conforms to the payment schema |
| PaymentValidation.ValidatePaymentDetails | src/services/validation/paymentValidation.ts:18-27 | a payment exactly when the value conforms, holding its amount and its details in order |
| PaymentValidation.RoundTrip | src/services/validation/paymentValidation.ts:18-27 | a payment with non-negative amounts comes back unchanged; one with a negative amount anywhere becomes null |
| PaymentValidation.NegativeAmountIsNull | src/services/validation/paymentValidation.ts:21-26 | a negative amount gives null, not an exception |
| PaymentValidation.HasPaymentDetailsOnValid | src/services/validation/paymentValidation.ts:29-38 | on a valid payment, `hasPaymentDetails` holds exactly when some detail was parsed |
| BomValidation.ConformsBom | src/services/validation/bomValidation.ts:3-9 | one element conforms exactly when it has a UUID and a conforming VAT detail |
| BomValidation.BomOf | src/services/validation/bomValidation.ts:3-9 | a conforming element parses to a row with a UUID and non-negative amounts |
| BomValidation.ValidateBomDetails | src/services/validation/bomValidation.ts:13-25 | null exactly for a falsy input or an empty array; rejected exactly when the input is not an array of conforming elements; otherwise one row per element |
| BomValidation.RowRoundTrip | src/services/validation/bomValidation.ts:3-9 | a row with a UUID and non-negative amounts passes and parses back to itself |
| BomValidation.RoundTrip | src/services/validation/bomValidation.ts:13-25 | a non-empty list of valid rows validates to itself; one invalid row rejects the list |
| BomValidation.HasBomDetails | src/services/validation/bomValidation.ts:27-36 | true exactly for an object whose `varav_bom_avbest_details` is an object holding a non-empty `moms_details` array |
| BomValidation.HasBomDetailsIff | src/services/validation/bomValidation.ts:27-36 | holds exactly for an object whose bom section has a non-empty array of details |
| TotalInkortValidation.ConformsRow | src/services/validation/totalInkortValidation.ts:10-17 | a row conforms exactly when its `shift_id` is a UUID and its five amounts are non-negative |
| TotalInkortValidation.RowOf | src/services/validation/totalInkortValidation.ts:10-17 | a conforming value parses to a valid row |
| TotalInkortValidation.CoercedFields | src/services/validation/totalInkortValidation.ts:29-36 | the coerced object holds `Number(x) \|\| 0` for the five amounts and the element's other keys |
| TotalInkortValidation.ValidateDetail | src/services/validation/totalInkortValidation.ts:28-38 | throws exactly for a null or undefined element; a passing element gives a valid row |
| TotalInkortValidation.DetailValidIff | src/services/validation/totalInkortValidation.ts:28-38 | a present element passes exactly when its `shift_id` is a UUID and every coerced amount is non-negative, and its row holds those amounts |
| TotalInkortValidation.FieldsConform | src/services/validation/totalInkortValidation.ts:10-36 | the coerced object passes exactly when the `shift_id` is a UUID and every amount is non-negative |
| TotalInkortValidation.NaNBecomesZero | src/services/validation/totalInkortValidation.ts:31-35 | an amount that is not a number becomes 0 |
| TotalInkortValidation.MapDetails | src/services/validation/totalInkortValidation.ts:28-38 | all rows in order when every element passes, otherwise a failure |
| TotalInkortValidation.FirstFailure | src/services/validation/totalInkortValidation.ts:28-38 | the map stops at the first failing element with that element's exception |
| TotalInkortValidation.ValidateTotalInkortDetails | src/services/validation/totalInkortValidation.ts:22-43 | throws the format error for a non-array; otherwise maps every element, one row per element |
| TotalInkortValidation.RowRoundTrip | src/services/validation/totalInkortValidation.ts:28-38 | a valid row's object passes and gives the row back; the object passes exactly when the row is valid |
| TotalInkortValidation.RoundTrip | src/services/validation/totalInkortValidation.ts:22-43 | validating the objects of valid rows gives the rows back |
| TotalInkortValidation.TransformRows | src/services/validation/totalInkortValidation.ts:50-57 | one row per detail, each tagged with the shift id and the section total, unless a detail is missing |
| TotalInkortValidation.TransformTotalInkortData | src/services/validation/totalInkortValidation.ts:45-58 | no details give no rows; otherwise the tagged rows |
| TotalInkortValidation.NoDetailsNoRows | src/services/validation/totalInkortValidation.ts:46-48 | a section with no or empty details gives no rows |
| TotalInkortValidation.TransformedRowsValidate | src/services/validation/totalInkortValidation.ts:22-58 | transformed valid rows pass the validator unchanged |
| ReceiptValidationService.Normalized | src/services/receiptValidationService.ts:52-58 | valid trips leave the record as it is; otherwise an object gets `turer` set to the normalised count |
| ReceiptValidationService.First | src/services/receiptValidationService.ts:72-74 | the first matching row, holding only the selected columns it has, and none exactly when nothing matched |
| ReceiptValidationService.Check | src/services/receiptValidationService.ts:30-140 | reads Companies, Cars and Drivers in that order and writes nothing; on success the flags are the kilometre rule, the trip rule and whether each lookup found a row, and the result is valid exactly when all five hold; each found entity is the first matching row cut down to the columns its query selects (`id, org_nr`; `id, regnr, drosknr`; `id, forarid`); a parse error is rethrown with no request; a failure after parsing is the error of a failing table |
| ReceiptValidationService.ValidateReceiptData | src/services/receiptValidationService.ts:30-140 | the method leaves every table unchanged, appends the requests `Check` describes to the log, and returns its result, with the record carrying the normalised trip count |
| ReceiptValidationService.KmValidIsRule | src/services/receiptValidationService.ts:46-47 | on numeric readings the kilometre flag is `validateKilometers` |
| ReceiptValidationService.CarNeedsBothKeys | src/services/receiptValidationService.ts:80-91 | a car registered under another drosk number is not found, whichever company the receipt names |
| Store.Select | src/services/shifts/database.ts:68-76 | the rows returned are exactly the table's rows that match every filter |
| Store.Single | src/services/shifts/saveShift.ts:25-29 | `.single()` gives a row exactly when one row matches |
| Store.SelectNone | src/services/shifts/database.ts:68-76 | a filter that matches no row gives no rows |
| Store.ReplayConcat | src/services/shifts/database.ts:108-110 | applying two runs of requests is applying the first and then the second |
| Store.ReplayOnlyAppends | src/services/shifts/database.ts:108-110 | requests only append: every table keeps its rows as a prefix |
| Store.NoWritesConcat | src/services/shifts/database.ts:68-76 | two runs without writes make one run without writes |
| Store.ReplayNoWrites | src/services/shifts/database.ts:68-76 | reads and failed writes change no table |
| Store.StopAt | src/services/shifts/saveShift.ts:87-156 | the step at which a run of inserts stops is within the run |
| Store.RunStepsWrites | src/services/shifts/saveShift.ts:87-156 | a run writes the batches of the steps before the one that fails, and every batch when none fails |
| Store.StepUnfold | src/services/shifts/saveShift.ts:87-156 | a throwing step stops the run with its message; a skipped step moves on; an insert continues only when it succeeds |
| Store.Lookup | src/services/shifts/saveShift.ts:25-56 | a lookup gives a row exactly when the table does not fail and one row matches |
| Store.LogAfter | src/services/shifts/saveShift.ts:20-170 | lookups and then a save's requests are the requests of the save with the lookups in front |
| Store.Finish | src/services/shifts/saveShift.ts:79-156 | a save from the shift insert on stores that shift and runs the given steps |
| Store.FinishLog | src/services/shifts/saveShift.ts:79-156 | the log of the shift insert and its steps is the one `Finish` describes, and so is the outcome |
| Store.FinishWellFormed | src/services/shifts/saveShift.ts:79-156 | the save `Finish` describes is well formed |
| Store.StoppedWellFormed | src/services/shifts/saveShift.ts:31-56 | a save stopped by a failed lookup is well formed |
| Store.AfterWellFormed | src/services/shifts/saveShift.ts:20-56 | read-only lookups in front keep a save well formed |
| Store.StoppedKeepsStore | src/services/shifts/saveShift.ts:31-169 | a save that stops before the shift insert throws and leaves the store as it was |
| Store.AfterInsert | src/services/shifts/saveShift.ts:79-156 | after the shift insert the store holds the shift row appended and then the batches of the steps that ran |
| Store.SucceededWritesAll | src/services/shifts/saveShift.ts:79-160 | a save that succeeds returns the stored shift and wrote it and every batch |
| Store.ShiftRowKept | src/services/shifts/saveShift.ts:79-156 | a save is not atomic: the inserted shift row stays whatever later step fails |
| Store.Database.constructor | src/services/shifts/database.ts:1-185 | a store with the given tables and failing set, an empty log and no shift ids given yet |
| Store.Database.Query | src/services/shifts/database.ts:68-81 | appends one read; returns the matching rows, or nothing when the table fails |
| Store.Database.QuerySingle | src/services/shifts/saveShift.ts:25-29 | appends one read; returns the one matching row, as `Lookup` describes |
| Store.Database.Insert | src/services/shifts/database.ts:108-115 | appends the write; succeeds exactly when the table does not fail, appending all rows, and otherwise changes nothing |
| Store.Database.InsertShift | src/services/shifts/database.ts:33-49 | on success appends the row with a fresh id to Shifts and returns it; otherwise changes no table |
| Store.Database.RunAll | src/services/shifts/saveShift.ts:87-156 | runs the steps until one throws or fails, appending their requests and leaving the tables as those requests make them |
| ShiftService.ShiftQuery | src/services/shiftService.ts:69-84 | writes nothing; no request when a time cannot be formatted; reports a shift exactly when both times format, the Shifts query succeeds and the store holds a shift matching the car's id, the driver's id, both formatted times and the report number |
| ShiftService.CheckExists | src/services/shiftService.ts:48-89 | writes nothing; reports a shift exactly when the car and driver are found within the company, both times format, the Shifts query succeeds and a stored shift matches all five keys (car id, driver id, formatted start and end, report number) |
| ShiftService.DuplicateFound | src/services/shiftService.ts:48-89 | a stored shift with the same car, driver, formatted times and report number is found when the car and driver are found |
| ShiftService.FailOpen | src/services/shiftService.ts:65-82 | when the car, driver or shift query fails, no duplicate is reported |
| ShiftService.CheckMissing | src/services/shiftService.ts:65-67 | without the car or the driver the check stops after the two lookups and finds nothing |
| ShiftService.CheckFound | src/services/shiftService.ts:51-84 | with both found, the check is the two lookups followed by the shift query |
| ShiftService.CheckShiftExists | src/services/shiftService.ts:48-89 | the method appends the requests `CheckExists` describes and returns its answer |
| ShiftService.QueryShift | src/services/shiftService.ts:69-84 | the method appends the requests `ShiftQuery` describes and returns its answer |
| ShiftService.FirstMissing | src/services/shiftService.ts:44-46 | None exactly when no element is null or undefined; otherwise such an element |
| ShiftService.FilterValid | src/services/shiftService.ts:44-46 | throws exactly when some element is null or undefined; otherwise keeps exactly the details with positive gross or net amount |
| ShiftService.FilterValidConcat | src/services/shiftService.ts:44-46 | filtering two runs gives the two filtered runs in order |
| ShiftService.FilterValidIsFilter | src/services/shiftService.ts:44-46 | over present details the filter is the order-keeping filter by positive gross or net |
| ShiftService.FilterValidOne | src/services/shiftService.ts:45 | one present detail is kept exactly when its gross or net amount is positive |
| ShiftService.NothingKept | src/services/shiftService.ts:44-173 | details with no positive gross or net amount are all dropped |
| ShiftService.DetailRow | src/services/shiftService.ts:175-221 | a detail's row refers to the shift |
| ShiftService.DetailRows | src/services/shiftService.ts:175-221 | one row per kept detail, each referring to the shift |
| ShiftService.SectionStep | src/services/shiftService.ts:170-188 | nothing unless the details have a positive length; a batch goes to the section's table, holds between 1 and the number of details rows and refers to the shift |
| ShiftService.ZeroDetailsSkipped | src/services/shiftService.ts:171-173 | a section whose details are all dropped writes nothing |
| ShiftService.Steps | src/services/shiftService.ts:164-226 | four sections in source order, each batch referring to the shift |
| ShiftService.Stored | src/services/shiftService.ts:154-158 | the stored row carries the id the store gave it |
| ShiftService.Insert | src/services/shiftService.ts:153-226 | the shift row with the next id, followed by the four sections |
| ShiftService.Schedule | src/services/shiftService.ts:140-226 | no lookups; a stored shift carries the next id |
| ShiftService.Prepare | src/services/shiftService.ts:112-134 | a stored shift carries the next id |
| ShiftService.Registered | src/services/shiftService.ts:106-110 | a stored shift carries the next id |
| ShiftService.Save | src/services/shiftService.ts:91-239 | a missing argument throws before any request; otherwise the first request reads Companies; a stored shift carries the next id |
| ShiftService.InsertShift | src/services/shiftService.ts:153-226 | the method appends the requests `Insert` describes, returns its result and uses one id |
| ShiftService.ScheduleShift | src/services/shiftService.ts:136-162 | the method appends the requests `Schedule` describes and returns its result |
| ShiftService.PrepareShift | src/services/shiftService.ts:112-162 | the method appends the requests `Prepare` describes and returns its result |
| ShiftService.CarNotFound | src/services/shiftService.ts:120-122 | without the car the save stops after its lookup with the car message, storing nothing |
| ShiftService.DriverNotFound | src/services/shiftService.ts:132-134 | without the driver the save stops after both lookups with the driver message, storing nothing |
| ShiftService.BothFound | src/services/shiftService.ts:112-136 | with both found the save goes on after the two lookups |
| ShiftService.RegisterShift | src/services/shiftService.ts:106-162 | the method appends the requests `Registered` describes and returns its result |
| ShiftService.DuplicateStops | src/services/shiftService.ts:107-110 | a duplicate stops the save after the check with the duplicate message, storing nothing |
| ShiftService.NoDuplicateGoesOn | src/services/shiftService.ts:106-112 | without a duplicate the save goes on after the check |
| ShiftService.SaveShiftData | src/services/shiftService.ts:91-239 | the method appends the requests `Save` describes, returns its result, leaves the tables as those requests make them and uses an id only when it stores a shift |
| ShiftService.ScheduleWellFormed | src/services/shiftService.ts:136-226 | the schedule stores at most the shift row under the next id, followed by its own sections |
| ShiftService.PrepareWellFormed | src/services/shiftService.ts:112-226 | the same for the lookups followed by the schedule |
| ShiftService.RegisteredWellFormed | src/services/shiftService.ts:106-226 | the same for the duplicate check followed by the rest |
| ShiftService.SaveWellFormed | src/services/shiftService.ts:91-239 | every save has that shape |
| ShiftService.StoppedWritesNothing | src/services/shiftService.ts:95-134 | a save that stops before the shift insert throws and leaves the store as it was |
| ShiftService.DuplicateRefused | src/services/shiftService.ts:106-110 | a registered duplicate is refused before anything is written |
| ShiftService.SavedWritesEverything | src/services/shiftService.ts:153-229 | a successful save stored the shift under the next id and every batch of its sections |
| ShiftService.SaveKeepsShiftRow | src/services/shiftService.ts:154-226 | the save is not atomic: the inserted shift row stays whatever later section fails |
| ShiftsIndex.SectionRow | src/services/shifts/index.ts:55-103 | a section row refers to the shift |
| ShiftsIndex.SectionRows | src/services/shifts/index.ts:55-103 | one row per detail, each referring to the shift |
| ShiftsIndex.SectionStep | src/services/shifts/index.ts:53-105 | nothing unless the details have a positive length; a batch goes to the section's table and refers to the shift |
| ShiftsIndex.Steps | src/services/shifts/index.ts:52-105 | four sections in source order, each batch referring to the shift |
| ShiftsIndex.Exists | src/services/shifts/database.ts:59-90 | a shift is found exactly when the Shifts query succeeds and a stored shift matches every key |
| ShiftsIndex.Insert | src/services/shifts/index.ts:49-105 | the shift row with the next id, followed by the four sections |
| ShiftsIndex.Checked | src/services/shifts/index.ts:42-49 | the first request is the duplicate check on Shifts |
| ShiftsIndex.CheckShiftExists | src/services/shifts/database.ts:59-90 | the method appends one read of Shifts and returns `Exists` |
| ShiftsIndex.InsertShift | src/services/shifts/index.ts:48-105 | the method appends the requests `Insert` describes and returns its result |
| ShiftsIndex.CheckAndInsert | src/services/shifts/index.ts:42-105 | the method appends the requests `Checked` describes and returns its result |
| ShiftsIndex.SaveShiftData | src/services/shifts/index.ts:14-118 | the method appends the requests of the save, returns its result and leaves the tables as those requests make them |
| ShiftsIndex.CheckedWellFormed | src/services/shifts/index.ts:42-105 | the check and insert store at most the shift row under the next id, followed by its own sections |
| ShiftsIndex.SaveWellFormed | src/services/shifts/index.ts:14-118 | every save has that shape, over the prepared data |
| ShiftsIndex.BadTimeSendsNothing | src/services/shifts/index.ts:26-27 | a time that cannot be formatted stops the save before any request |
| ShiftsIndex.DuplicateRefused | src/services/shifts/index.ts:43-46 | a stored matching shift makes the save refuse with nothing written |
| ShiftsIndex.SavedWritesEverything | src/services/shifts/index.ts:49-108 | a successful save stored the shift row under the next id and every batch of the prepared sections |
| ShiftsIndex.SaveKeepsShiftRow | src/services/shifts/index.ts:49-105 | the save is not atomic: the inserted shift row stays whatever later section fails |
| ShiftsIndex.CashNeverRecorded | src/services/shifts/index.ts:19-35 | the pruned sections have no `kontant` or `kredit`, so the shift row's cash and credit are always 0 |
| ShiftsIndex.SectionAmountDropped | src/services/shifts/index.ts:19 | a pruned cash or credit section has no field but its details |
| ShiftsIndex.PrunedSectionWritten | src/services/shifts/index.ts:53-105 | a pruned section with rows becomes one batch in its table, one row per valid row in order |
| ShiftsIndex.RowKeepsNumbers | src/services/shifts/index.ts:55-90 | the numbers of a typed VAT row reach its table as they are |
| ShiftsIndex.PreparedStepSucceeds | src/services/shifts/index.ts:19-105 | on prepared data a section step does not throw and writes exactly when the section survived the pruning |
| ShiftsIndex.PreparedStepsSucceed | src/services/shifts/index.ts:19-105 | the same for all four sections |
| SaveShift.SectionStep | src/services/shifts/saveShift.ts:87-156 | nothing unless the details have a positive length; a batch goes to the section's table, one row per detail, each referring to the shift |
| SaveShift.Steps | src/services/shifts/saveShift.ts:87-156 | four sections in source order, each batch referring to the shift |
| SaveShift.StoredShift | src/services/shifts/saveShift.ts:59-83 | the stored row carries the id the store gave it |
| SaveShift.Insert | src/services/shifts/saveShift.ts:79-156 | the shift row with the next id, followed by the four sections |
| SaveShift.InsertShift | src/services/shifts/saveShift.ts:79-156 | the method appends the requests `Insert` describes and returns its result |
| SaveShift.FindDriver | src/services/shifts/saveShift.ts:47-56 | the method appends the requests of the driver lookup and the rest, and returns its result |
| SaveShift.DriverFound | src/services/shifts/saveShift.ts:47-56 | with the driver found the save goes on with the insert after its lookup |
| SaveShift.ResolveShift | src/services/shifts/saveShift.ts:35-56 | the method appends the requests of the car and driver lookups and the rest, and returns its result |
| SaveShift.SaveShiftData | src/services/shifts/saveShift.ts:20-170 | the method appends the requests of the save, returns its result and leaves the tables as those requests make them |
| SaveShift.WithCarWellFormed | src/services/shifts/saveShift.ts:47-156 | the save from the driver lookup on stores at most the shift row under the next id, followed by its own sections |
| SaveShift.ResolveWellFormed | src/services/shifts/saveShift.ts:35-156 | the same from the car lookup on |
| SaveShift.SaveWellFormed | src/services/shifts/saveShift.ts:20-170 | every save has that shape |
| SaveShift.StoredIds | src/services/shifts/saveShift.ts:59-61 | the shift row refers to the car and the driver found |
| SaveShift.NoDuplicateCheck | src/services/shifts/saveShift.ts:20-85 | there is no duplicate check: with all three found, the save reads only Companies, Cars and Drivers and the inserted row stays whatever Shifts holds |
| SaveShift.AllFound | src/services/shifts/saveShift.ts:24-83 | with the company, car and driver found the save sends the three lookups and then inserts |
| SaveShift.StoppedWritesNothing | src/services/shifts/saveShift.ts:24-169 | a save that stops before the shift insert throws and leaves the store as it was |
| SaveShift.ZeroDetailsWritten | src/services/shifts/saveShift.ts:88-103 | details are not filtered: a section of zero details is written all the same, one row per detail |
| SaveShift.SavedWritesEverything | src/services/shifts/saveShift.ts:79-160 | a successful save stored the shift under the next id and every batch of its sections |
| SaveShift.SaveKeepsShiftRow | src/services/shifts/saveShift.ts:79-156 | the save is not atomic: the inserted shift row stays whatever later section fails |
| DataService.VatRow | src/services/dataService.ts:61-67 | a VAT row refers to the shift |
| DataService.VatRows | src/services/dataService.ts:61-67 | one row per detail, each referring to the shift |
| DataService.VatStep | src/services/dataService.ts:60-76 | nothing unless `vat_details` is truthy with a positive length; a batch goes to VAT_Details and refers to the shift |
| DataService.StoredShift | src/services/dataService.ts:35-54 | the stored row carries the id the store gave it |
| DataService.Insert | src/services/dataService.ts:35-78 | the shift row with the next id, followed by the VAT batch |
| DataService.InsertShift | src/services/dataService.ts:35-78 | the method appends the requests `Insert` describes and returns its result |
| DataService.FindDriver | src/services/dataService.ts:25-33 | the method appends the driver lookup and the rest, and returns its result |
| DataService.ResolveShift | src/services/dataService.ts:15-33 | the method appends the car and driver lookups and the rest, and returns its result |
| DataService.SaveShiftData | src/services/dataService.ts:4-79 | the method appends the requests of the save, returns its result and leaves the tables as those requests make them |
| DataService.WithCarWellFormed | src/services/dataService.ts:25-78 | the save from the driver lookup on stores at most the shift row under the next id, followed by its VAT batch |
| DataService.ResolveWellFormed | src/services/dataService.ts:15-78 | the same from the car lookup on |
| DataService.SaveWellFormed | src/services/dataService.ts:4-79 | every save has that shape |
| DataService.StoredIds | src/services/dataService.ts:38-39 | the shift row refers to the car and the driver found |
| DataService.UnscopedNoDuplicateCheck | src/services/dataService.ts:5-54 | car and driver are found by their own numbers alone and the row is inserted without reading Shifts |
| DataService.WageReadFromMisspeltKey | src/services/dataService.ts:51 | the wage column comes from `longegr_ex_moms`, so a `lonegr_ex_moms` field never reaches the row |
| DataService.VatRowUntyped | src/services/dataService.ts:61-67 | a VAT row has exactly the shift id and the four amounts, and no type |
| DataService.StoppedWritesNothing | src/services/dataService.ts:11-33 | a save that stops before the shift insert throws and leaves the store as it was |
| DataService.SavedWritesEverything | src/services/dataService.ts:35-78 | a successful save stored the shift under the next id and the VAT batch |
| DataService.SaveKeepsShiftRow | src/services/dataService.ts:35-76 | the save is not atomic: the inserted shift row stays when the VAT insert fails |
| AuthValidation.PasswordIssues | src/utils/validation/authValidation.ts:4-9 | no issue exactly when the password has at least 8 characters, an upper-case letter, a lower-case letter, a digit and a character outside those classes |
| AuthValidation.ValidatePassword | src/utils/validation/authValidation.ts:13-22 | returns exactly when there is no issue; otherwise throws the first issue's message |
| AuthValidation.PasswordAcceptedIff | src/utils/validation/authValidation.ts:4-22 | a password is accepted exactly when it meets all five rules |
| AuthValidation.ShortReportedFirst | src/utils/validation/authValidation.ts:5-18 | a password under 8 characters is refused with the length message, whatever else it lacks |
| AuthValidation.UpperReportedBeforeOthers | src/utils/validation/authValidation.ts:6-18 | a long enough password without an upper-case letter is refused with that message |
| AuthValidation.SamplePasswordAccepted | src/utils/validation/authValidation.ts:4-9 | an illustration of `PasswordAcceptedIff`: "Taxi2024!" is accepted |
| AuthValidation.ValidateAuthCredentials | src/utils/validation/authValidation.ts:24-38 | an invalid e-mail throws the e-mail message before the password is looked at; otherwise the password decides, so the credentials pass exactly when the e-mail is valid and the password meets all five rules |
| UserValidation.ValidateUserRole | src/utils/validation/userValidation.ts:3-10 | reading a field of null or undefined throws; otherwise true exactly when the ids are strings, the role is "admin" or "user" and `is_active` is a boolean |
| UserValidation.EveryRole | src/utils/validation/userValidation.ts:17 | true exactly when every role passes; a throw comes from some role |
| UserValidation.ValidateUser | src/utils/validation/userValidation.ts:12-20 | throws only for a null or undefined user or while checking its roles |
| UserValidation.ValidUserIff | src/utils/validation/userValidation.ts:12-20 | a user is valid exactly when its three fields are strings and `user_roles` is an array of valid roles |
| UserValidation.NoRolesAccepted | src/utils/validation/userValidation.ts:12-20 | a user with no roles is valid |
| UserValidation.BadRoleInvalidates | src/utils/validation/userValidation.ts:7-17 | a role named "owner" anywhere makes the user invalid |
| RoleValidation.RoleIssues | src/utils/validation/roleValidation.ts:3-10 | no issue exactly when the role conforms to the schema |
| RoleValidation.ValidateRole | src/utils/validation/roleValidation.ts:12-19 | true exactly when the role conforms to the schema |
| RoleValidation.CompanyMayBeNull | src/utils/validation/roleValidation.ts:7 | a null company passes; a company that is not a UUID fails |
| RoleValidation.ValidateRoleUpdate | src/utils/validation/roleValidation.ts:21-23 | true exactly for "admin" and "user" |
| RoleValidation.UpdateMatchesSchema | src/utils/validation/roleValidation.ts:6-23 | the update check accepts exactly the role names the schema accepts |
| UserTransforms.TransformUserData | src/utils/transforms/userTransforms.ts:13-27 | the user takes its id from `user_id` and has exactly one role holding the raw role's fields |
| UserTransforms.TransformLossless | src/utils/transforms/userTransforms.ts:13-27 | the raw record can be read back from the user |
| UserTransforms.TransformedUserValid | src/utils/transforms/userTransforms.ts:13-27 | every transformed user passes `validateUser` |

## Left out

- Js.StringToNumber: there is no Infinity. In JavaScript `Number("Infinity")` is Infinity and `Number("1e400")` overflows to Infinity, so `Number(x) || 0` keeps Infinity. Here the first gives `NaN`, so `NumberOrZero` gives 0, and the second gives the exact value 10^400.
- Js.NumberToString: there is no exponent form, and at most 20 fraction digits are printed. JavaScript prints `1e21` as "1e+21"; here it is printed with all 22 digits. The difference reaches `ToStr` inside the store's equality filters and inside error messages that embed a value.
- Js.Number: exact reals stand in for IEEE-754 doubles throughout. Rounding, -0 and the largest and smallest magnitudes are not modelled. The amounts are only compared, copied and coerced, never summed.
- Js.Value: strings are sequences of code points, not UTF-16 code units. So `z.string().min(8)` in `AuthValidation.PasswordIssues` counts a character outside the Basic Multilingual Plane once, where JavaScript counts it twice.
- Js.ToLower: case mapping covers ASCII and Latin-1 only (`Js.ToUpper` as well). Other scripts are left as they are.
- AuthValidation.ValidateAuthCredentials: zod's e-mail format check is the parameter `isEmail`, not its regular expression.
- RoleValidation.ValidateRole: zod's `datetime()` check of `created_at` is the parameter `isDateTime`.
- OcrValidation.ValidateJsonResponse: `JSON.parse` is the parameter `parses`. The result is exact only for the brace span the regular expression finds.
- ReceiptValidationService.ValidateReceiptData: the outcome of `JSON.parse` on the caller's string is the argument `json`. A parse failure is the `Throws` case of that argument.
- OcrNormalize.NormalizeOcrData: the clock reading that `DEFAULT_DATA` takes its start and end times from is the parameter `now`. The date formatting of that reading is not modelled.
- DateTime.FormatValueForDB: a truthy value that is not a string always throws "dateString.split is not a function". In src/utils/dateTime.ts:44-45 the regular expression's `test` first turns its argument into text, so a value whose text is already canonical, such as the array `["2024-01-05 08:03"]`, is returned unchanged. The callers declare these times as strings, so the model gives no result for such a value, and its result type holds strings only.
- Zod: the schemas follow zod version 3. That means `z.number()` rejects `NaN`, an object parse reports every failing field in shape order and strips unknown keys, and `uuid()` is version 3's pattern. Other versions are not modelled.
- ShiftsIndex.SaveShiftData: the import `'../../utils/vat'` (src/services/shifts/index.ts:5) is taken to re-export `prepareVatDetailsForSave` from src/utils/vat/processor.ts and `parseNumber` from src/utils/vat/parser.ts. src/utils/vat/index.ts is not part of this model, and `ShiftsIndex.CashNeverRecorded` holds under exactly this choice.
- Store.StoreError: a store failure is a table in the database's fixed `failing` set, and `StoreError(t)` stands in for supabase's error objects. src/services/shifts/saveShift.ts:85 rethrows the raw `PostgrestError`, whose message is not modelled. Network faults and other transient faults are not modelled either.
- Store.Database: the supabase client and the thin wrappers around it (src/services/shifts/database.ts, src/services/database/*.ts, src/lib/supabase.ts) are replaced by this one class. It keeps their observable contract for what the services use: a failing duplicate query reads as "no duplicate", an empty batch is a no-op, and `.single()` wants exactly one row.
- Store.Database.InsertShift: returns the stored shift row alone. In src/services/shifts/database.ts:36-44 the insert selects the new shift together with its car, its driver and its (still empty) VAT, BOM and total-inkört detail lists. Those embedded relations are not modelled. Every caller of the save functions discards the returned shift.
- OcrUtils.WithRetry: the operation's outcomes are given as a sequence, and the timer is the sequence of delays it would wait. No clock is modelled.
- Toast notifications and console logging are dropped. In `OcrNormalize` a missing required field is only logged, so it changes nothing in the model.
- Concurrency is not modelled. One submission runs at a time, so neither the race between the duplicate check and the insert nor the `Promise.all` over uploaded images appears.
- The React components, views and hooks are not modelled. That includes the dot-path setters and the salary and summary computations inside them, which are floating-point products.
- The OCR and vision clients are not modelled: HTTP, FileReader, abort timers, the prompt, and parsing of model output beyond the `parses` parameter.
- The creation of companies, cars and drivers is not modelled. It consists of insert sequences whose only logic is non-empty checks and trimming.
- Authentication, sessions and JWT handling are not modelled. They depend on the wall clock, the browser's `atob` and the supabase auth API.
- The parts that need JavaScript `Date` are not modelled: `parseDateTime` and `formatISOString` (src/utils/dateTime.ts:61-87), `dateTimeSchema` (src/utils/validation.ts:21-32) and the default date ranges. The same goes for the Intl currency and number formatting in src/utils/formatters.ts:1-17.
- PDF export, printing and the error-class wrappers (`utils/error.ts`, `ocr/errors.ts`) are not modelled. They do DOM work or wrap messages.
