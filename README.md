# RSPL spare-parts generator: a Dafny model

The RSPL generator is a single-page React tool. A user enters a brand and
an equipment type and may attach a PDF manual. The tool then produces a
Recommended Spare Parts List (RSPL): one 22-column record per spare part,
covering the part number, CAGE code, HS code, country of origin,
recommended quantities for 0-2 and 0-6 years, unit of issue, dimensions,
weights, shelf life, storage, repair level and HAT/SAT flag. It keeps a
list of generation jobs, shows progress while a job runs, and exports a
finished job's table as a file.

There are two variants of the component, and this project models both:

* `src/App-FIXED.jsx` is the deterministic-quantity generator. It extracts
  the printable bytes of the uploaded PDF, or uses a synthetic manual
  sentence when there is no PDF. It looks for the 16 keywords of a parts
  catalog in that text, falling back to a per-equipment part table and then
  to two generic parts. It derives recommended quantities, shelf life,
  storage and repair level from the part type (Pr, Cr or Con). It exports a
  tab-separated document.
* `src/App.jsx` is the randomised generator. It picks a part list from a
  library by equipment category, falling back to two generic parts. It fills
  every supplier field from random draws. It exports a CSV document with a
  three-line preamble (title, generation date, empty line). Cells are
  escaped by the quoting rules of section 2 of RFC 4180, and each record ends
  with a single line feed.

Modules:

| file | module | contents |
|---|---|---|
| text.dfy | `Text` | The string operations both components use: ASCII `toLowerCase`/`toUpperCase`, `trim`, `includes`, `substring`, `split(' ')[0]`, number-to-decimal text, `join`/split with a separator, and newline-terminated line lists with their splitter. |
| records.dfy | `Records` | The 22-field part record, the column titles, the row of cells per record and the table (header plus one row per record). |
| jobs.dfy | `Jobs` | The job list: new job, `find` by id, replace-by-id on completion and on failure, and progress sequences. |
| csv.dfy | `Csv` | The CSV cell escape, and its inverse: a decoder for the field grammar of section 2 of RFC 4180, with records ended by a line feed. |
| `fixed_generator.dfy` | `FixedGenerator` | The deterministic generator: catalog, part tables, printable-byte extraction, record synthesis, keyword parsing, the session's `startProcessing` and the TSV export. |
| `mock_generator.dfy` | `MockGenerator` | The randomised generator: library, category search with its `'default'` guard, mock supplier data, part generation, the session's `startProcessing` and the CSV export. |

Nondeterminism is explicit in the model:

* Every `Math.random()` draw becomes a parameter whose subset type states
  its range. `FixedDraw`, `SupplierDraw` and `PartDraw` are such types. A
  function `nat -> Draw` supplies the draws for the k-th part.
* Job ids and the export date are parameters.
* The uploaded file is a value (`Upload`), holding its name, MIME type and
  bytes.
* Weights are natural numbers of hundredths of a kilogram. The fixed
  generator's item weight is written as JavaScript's shortest number text
  (`NumberText`: "2.5", "2", "0.15"). Its packaging weight and both mock
  weights are written with two decimals (`Fixed2Text`).

Each `startProcessing` is a method of a `Session` class. The class's fields
are the component's `useState` slots. The method is proved against a
function of the old state: the job list after the run is `RunJobs` or
`MockRunJobs` of the inputs, the sequence of progress values it sets is
recorded, and the inputs are cleared. Each export is a method proved
against a document function, and that function is proved to decode back
to the table. The TSV document splits back into its header and rows.
For the CSV document, the body after the preamble parses back into its header
and rows, by RFC 4180's quoting rules with line-feed record ends.

## Model

| member | source | states |
|---|---|---|
| Text.Lower | src/App-FIXED.jsx:71 | Lower-casing keeps the length and maps every character to its ASCII lower-case image. |
| Text.LowerIsNormal | src/App.jsx:50 | A lower-cased text holds no upper-case letter, and lower-casing it again changes nothing. |
| Text.Upper | src/App.jsx:34 | Upper-casing keeps the length and maps every character to its ASCII upper-case image. |
| Text.Capitalize | src/App-FIXED.jsx:80 | `charAt(0).toUpperCase() + slice(1)` keeps the length, upper-cases the first character and leaves the rest as it was. |
| Text.Prefix | src/App.jsx:34 | `substring(0, n)` is a prefix of the text, of length min(n, length). |
| Text.ContainsTransitive | src/App-FIXED.jsx:76-85 | If a text contains p and p contains q, the text contains q. This is why one catalog keyword inside another matches twice. |
| Text.FirstContainedKey | src/App-FIXED.jsx:132-138 | The category loop's choice is the first key the text contains, and no earlier key is contained. It is None exactly when no key is contained. |
| Text.FindFirstKey | src/App-FIXED.jsx:132-138 | The `for ... in` loop with `break` returns exactly `FirstContainedKey`. |
| Text.FirstContainedKeyAt | src/App-FIXED.jsx:132-138 | A contained key with no contained key before it is the one chosen. |
| Text.Trim | src/App-FIXED.jsx:222-223 | The text is a whitespace-only prefix, then the result, then a whitespace-only suffix. The prefix is exactly the leading whitespace, and the result neither starts nor ends with JavaScript whitespace. |
| Text.TrimEmptyIffBlank | src/App-FIXED.jsx:209-212 | `!s.trim()` holds exactly when the text is all whitespace. This is the validation that rejects a run. |
| Text.FirstWord | src/App-FIXED.jsx:147 | `split(' ')[0]` is a prefix without spaces, followed by a space when it is not the whole text. |
| Text.DecimalText | src/App-FIXED.jsx:171-173 | A number's decimal text is non-empty and all digits, and it is one digit long exactly when the number is below 10. It has no leading zero, except for 0 itself. |
| Text.DecimalRoundTrip | src/App-FIXED.jsx:171-173 | Reading a number's decimal text back gives the number. |
| Text.FourDigits | src/App-FIXED.jsx:171 | A part number in [1000, 9999] is written with exactly four digits and no leading zero. |
| Text.SplitJoin | src/App-FIXED.jsx:332 | `Split` inverts `Join` (`cells.join(sep)`): splitting the joined text at sep gives the cells back when no cell holds sep. |
| Text.MapLines | src/App-FIXED.jsx:334-360 | One line per item, the k-th line rendering the k-th item. |
| Text.AppendLines | src/App-FIXED.jsx:334-360 | The `forEach` that appends `line + '\n'` per item leaves the text followed by the items' lines, each ended by a newline. |
| Text.SplitTerminated | src/App-FIXED.jsx:332-359 | Splitting a newline-terminated document at its newlines gives its lines back, when no line holds a newline. |
| Records.Header | src/App-FIXED.jsx:306-329 | The header has 22 column titles. |
| Records.NumberText | src/App-FIXED.jsx:184 | JavaScript's text for a weight in hundredths reads back, by `HundredthsValue`, as that weight. |
| Records.NumberTextShape | src/App-FIXED.jsx:184 | That text has a point exactly when the weight is not whole, and it never ends in a zero after the point. It has no leading zero unless the weight is below 1. |
| Records.PointText | src/App-FIXED.jsx:184 | Whole digits followed by the shortest fraction for the hundredths (none, one digit or two) read back as the whole units plus those hundredths. |
| Records.Fixed2Text | src/App.jsx:41-43 | `toFixed(2)` text reads back as the value in hundredths, with exactly two digits after the point and no leading zero unless the value is below 1. |
| Records.HeaderFree | src/App-FIXED.jsx:306-329 | No column title holds a tab or a newline. |
| Records.SupplierPartNumberParts | src/App-FIXED.jsx:171 | The part number text is the upper-cased first three brand letters (at most three, none lower-case), then `-`, then digits that read back as the drawn number. |
| Records.Cells | src/App-FIXED.jsx:335-358 | A record's row has one cell per header column, cell `col` being the record's field for that column. |
| Records.Table | src/App.jsx:209-263 | The table is the header row followed by one row per result, in order. |
| Records.CellsFree | src/App-FIXED.jsx:335-359 | When a record's text fields hold no tab (or no newline), none of its cells does. |
| Jobs.NewJob | src/App-FIXED.jsx:219-229 | A new job carries the id and file name, is processing at progress 0 with no results and no error, and holds the trimmed brand and type. Each of them is empty exactly when the typed text was blank. |
| Jobs.FindJob | src/App-FIXED.jsx:299 | `find` gives the first job with the id. It is None exactly when no job has the id. |
| Jobs.ReplaceById | src/App-FIXED.jsx:277-279 | The `map` keeps the length, replaces every job with the id and leaves every other job as it was. |
| Jobs.FindPrepended | src/App-FIXED.jsx:231 | A job put at the front is the one `find` returns for its id. |
| Jobs.FindAfterReplace | src/App-FIXED.jsx:277-279 | Replacing by id, with an update that keeps ids, moves no job. `find` returns the same position for every id, and other ids' jobs are untouched. |
| Jobs.CompleteIsolated | src/App-FIXED.jsx:270-279 | Completing a run keeps the list's length and every other run's job. The run's own job becomes the finished job. |
| Jobs.FailIsolated | src/App-FIXED.jsx:286-294 | The catch branch keeps the list's length and every other run's job. |
| Csv.DoubleQuotes | src/App.jsx:273 | Doubling quotes never shortens a text. Its inverse is `QuotedRoundTrip`. |
| Csv.EscapeCell | src/App.jsx:270-275 | A cell is quoted exactly when it holds a comma, a double quote or a newline. Otherwise it is written unchanged. A quoted cell also ends with a quote. |
| Csv.EscapeAll | src/App.jsx:270-276 | The row's cells are escaped one by one: the k-th output is the k-th cell, escaped. |
| Csv.UnquotedRoundTrip | src/App.jsx:270-276 | A cell written unquoted parses back up to the next comma or newline. |
| Csv.QuotedRoundTrip | src/App.jsx:273 | The body of a quoted cell, with its quotes doubled, parses back to the original text. |
| Csv.FieldRoundTrip | src/App.jsx:270-275 | Every escaped cell parses back to itself, with the rest of the line left over. |
| Csv.RecordRoundTrip | src/App.jsx:269-278 | `EncodeRow` (`cells.map(escape).join(',')`) is inverted by the record parser: an encoded row followed by a newline parses back to its cells. |
| Csv.RowsRoundTrip | src/App.jsx:269-278 | `EncodeRows` (one encoded row per line, each ended by `\n`) is inverted by the parser: the body of any rows with at least one cell parses back to those rows. |
| FixedGenerator.Catalog | src/App-FIXED.jsx:17-34 | The catalog has 16 keyword entries, in key order. |
| FixedGenerator.EquipmentParts | src/App-FIXED.jsx:97-130 | The category table has 6 categories, in key order. |
| FixedGenerator.CategoriesNonEmpty | src/App-FIXED.jsx:97-130 | Every category lists at least three parts. |
| FixedGenerator.ExtractText | src/App-FIXED.jsx:52-63 | The byte loop returns the buffer's printable bytes (32 to 126), in order, as characters. |
| FixedGenerator.PrintableFilter | src/App-FIXED.jsx:52-63 | The extraction distributes over concatenation, keeps a single byte exactly when it lies in 32 to 126, is never longer than the buffer and yields only characters in 32 to 126. |
| FixedGenerator.EffectiveType | src/App-FIXED.jsx:151 | `basePart.type \|\| 'Pr'` is never empty: it is the part's own type when it has one, and Pr otherwise. |
| FixedGenerator.PackagingWeight | src/App-FIXED.jsx:186 | The packaging weight p, in hundredths, is 1.3 times the base weight rounded to the nearest hundredth: 10p - 5 <= 13 weight < 10p + 5. |
| FixedGenerator.CreateFullPart | src/App-FIXED.jsx:150-193 | A record keeps the base part's name and type, and its unit of issue is the base part's, defaulting to `EA`. Every record is consistent: 1 <= 2-year quantity <= 6-year quantity. A 730-day shelf life, special storage and type Con go together. OLM goes with an effective type Pr and with equal quantities. The shelf life is 730 or 1825 and HAT/SAT is `Y`. |
| FixedGenerator.CreateFullPartByType | src/App-FIXED.jsx:151-167 | With the type defaulting to Pr: Pr gives 1/1, Con gives 2/5 and any other type 1/2 as the 2-year/6-year quantities. Con gives 730 days of shelf life and special storage, others 1825 days and none. Pr is repaired at OLM, others at DLM. HAT/SAT is always `Y`. |
| FixedGenerator.CreateFullPartRanges | src/App-FIXED.jsx:171-182 | The record's part number is the brand prefix with a number in [1000, 8999]. The CAGE code is in [10000, 99999] and the HS code in [8400, 16399]. Quantity per assembly, minimum sales quantity and package quantity are all 1. |
| FixedGenerator.CreateFullPartOrigin | src/App-FIXED.jsx:174 | The country of origin is one of NL, DE, IT, ES. |
| FixedGenerator.CreateFullPartWeights | src/App-FIXED.jsx:185-186 | The item weight text reads back as the base weight, or as 0.5 kg when there is none. The packaging weight text has two decimals and reads back as 1.3 times the base weight, to the nearest hundredth. |
| FixedGenerator.Synthesize | src/App-FIXED.jsx:88 | `parts.map(createFullPartObject)` gives one record per part, in order. |
| FixedGenerator.DefaultParts | src/App-FIXED.jsx:94-148 | The default-parts generator (its category loop included) returns `DefaultPartsSpec`. |
| FixedGenerator.DefaultPartsCategory | src/App-FIXED.jsx:132-147 | When category i is the first one the lower-cased type contains, the records are that category's parts, by name and type, in order. |
| FixedGenerator.DefaultPartsGeneric | src/App-FIXED.jsx:140-145 | When no category matches, the records are exactly Control Board (Pr) and Filter Element (Con). |
| FixedGenerator.DefaultPartsBranded | src/App-FIXED.jsx:147 | There are at least two default records. Each carries the first word of the equipment type as its part-number prefix source. |
| FixedGenerator.FoundParts | src/App-FIXED.jsx:79-83 | One found part per matched keyword, in order. |
| FixedGenerator.ParseParts | src/App-FIXED.jsx:66-92 | The parser, with its keyword loop, returns `ParsePartsSpec`. |
| FixedGenerator.MatchedMembers | src/App-FIXED.jsx:76-85 | A catalog entry is found exactly when its keyword occurs in the lower-cased text. |
| FixedGenerator.MatchedOrder | src/App-FIXED.jsx:76-85 | Found entries keep the catalog's order: they sit at strictly increasing catalog positions. |
| FixedGenerator.MatchedDistinct | src/App-FIXED.jsx:76-85 | A catalog with distinct keywords yields found entries with distinct keywords. |
| FixedGenerator.CatalogDistinct | src/App-FIXED.jsx:17-34 | The catalog's 16 keywords are pairwise distinct. |
| FixedGenerator.CatalogUnits | src/App-FIXED.jsx:17-34 | Every catalog entry names a unit of issue. |
| FixedGenerator.ParsePartsFallback | src/App-FIXED.jsx:67-69 | A text shorter than 10 characters, or one with no keyword, yields exactly the default parts for the equipment type. |
| FixedGenerator.ParsePartsKeywords | src/App-FIXED.jsx:71-88 | Otherwise there is one record per found keyword (found exactly when contained, no duplicates). Each is named by the capitalized keyword, with the catalog's type and unit and the brand's part-number prefix. |
| FixedGenerator.KeywordYieldsPart | src/App-FIXED.jsx:76-85 | Every catalog keyword in a text of 10 or more characters yields a record named after it. |
| FixedGenerator.OverlappingKeywords | src/App-FIXED.jsx:17-34 | A text mentioning "heating element" yields both a "Heating element" and an "Element" record. |
| FixedGenerator.ParsePartsNonEmpty | src/App-FIXED.jsx:66-92 | Parsing always yields at least one record. |
| FixedGenerator.ExportTsv | src/App-FIXED.jsx:298-300 | With no job of that id there is no document. Otherwise the document is the TSV of the first such job's results. |
| FixedGenerator.WriteTsv | src/App-FIXED.jsx:331-359 | The header line and the `forEach` over the results build `TsvDocument`. |
| FixedGenerator.TsvLinesMapped | src/App-FIXED.jsx:331-359 | The TSV lines are the joined header followed by one tab-joined row per result. |
| FixedGenerator.TsvRoundTrip | src/App-FIXED.jsx:331-359 | When no text field holds a tab or a newline, the document splits into exactly `results + 1` lines, and back into the header and the records' rows. |
| FixedGenerator.FixedCheckpointsMonotone | src/App-FIXED.jsx:215-267 | A run's progress values 0, 20, 40, 50, 75, 95, 100 never go down, starting at 0 and ending at 100. |
| FixedGenerator.Session.constructor | src/App-FIXED.jsx:5-13 | The initial state: no jobs, no PDF, empty inputs, not processing, progress 0. |
| FixedGenerator.Session.HandlePdfUpload | src/App-FIXED.jsx:195-202 | A file is kept only when it is present and of type `application/pdf`. Otherwise the old file stays. |
| FixedGenerator.Session.EnterDetails | src/App-FIXED.jsx:496 | The brand and equipment type become what was typed. |
| FixedGenerator.Session.SetProgress | src/App-FIXED.jsx:215 | The progress becomes the value, and the value is recorded. |
| FixedGenerator.Session.StartProcessing | src/App-FIXED.jsx:208-296 | A run starts exactly when neither input is blank, and otherwise nothing changes. A run prepends the new job and replaces it by the completed one with the parts parsed from the PDF or manual text (`RunJobs`). It passes through the progress values 0, 20, 40, 50, 75, 95, 100, and clears the inputs. |
| FixedGenerator.Session.Run | src/App-FIXED.jsx:214-284 | The body of a started run has the same effect on jobs, progress and inputs. |
| FixedGenerator.Session.Begin | src/App-FIXED.jsx:214-231 | Processing is set, progress reset to 0 (and recorded) and the new job put at the front. |
| FixedGenerator.SourceText | src/App-FIXED.jsx:236-250 | With a PDF, the text is no longer than the file and every character is printable ASCII (32..126). Without one, it is the synthetic manual sentence. |
| FixedGenerator.SimulatedManual | src/App-FIXED.jsx:248 | The synthetic manual sentence mentions both the brand and the equipment type. |
| FixedGenerator.Session.FetchText | src/App-FIXED.jsx:236-250 | The text is the PDF's printable bytes, or the synthetic manual sentence. Progress passes 20 and 40. |
| FixedGenerator.Session.Analyse | src/App-FIXED.jsx:252-263 | The parts are `ParsePartsSpec` of the text. Progress passes 50, 75 and 95. |
| FixedGenerator.Session.Generate | src/App-FIXED.jsx:236-263 | Text fetching followed by parsing. |
| FixedGenerator.Session.Finish | src/App-FIXED.jsx:267-284 | Progress 100. The run's job is replaced by the completed one, and the PDF, brand and type are cleared. |
| FixedGenerator.Session.FailProcessing | src/App-FIXED.jsx:286-294 | The catch branch marks the run's job as failed and stops processing. |
| FixedGenerator.CompletedRunFound | src/App-FIXED.jsx:270-279 | After a run, `find` by the run's id returns the first job. It is completed, with at least one part. |
| MockGenerator.CategoryParts | src/App.jsx:51-92 | Each library category has its listed number of parts (5, 5, 4, 4, 4, 5), in order. |
| MockGenerator.PartsLibrary | src/App.jsx:51-92 | The library has 6 categories, in key order. |
| MockGenerator.LibraryHasNoDefault | src/App.jsx:51-92 | No library category is named `default`. |
| MockGenerator.LibraryNonEmpty | src/App.jsx:51-92 | Every category lists at least four parts. |
| MockGenerator.FirstCategory | src/App.jsx:96-101 | The guarded loop chooses the first key that is not `default` and is contained in the text. It chooses nothing exactly when there is no such key. |
| MockGenerator.FindCategory | src/App.jsx:96-101 | The `for ... in` loop with `break` returns exactly `FirstCategory`. |
| MockGenerator.FirstCategoryAt | src/App.jsx:96-101 | A selectable key with none selectable before it is the one chosen. |
| MockGenerator.GuardInert | src/App.jsx:97 | In a table without a `default` key, the guarded loop chooses as the unguarded one does. |
| MockGenerator.MockSupplierData | src/App.jsx:29-46 | Every field is in the range of its draw. The minimum sales quantity is in [1, 5] and the package quantity in [1, 10]. The CAGE code is in [10000, 99999] and the HS code in [8400, 16399]. The country is one of NL, DE, IT, ES, SE. Item dimensions are within 10..59 x 5..44 x 3..32 and packaging dimensions within 20..99 x 15..74 x 10..59. Weights read back between 0.50 and 50.50 kg (item) and between 1.00 and 101.00 kg (packaging). The shelf life is in [365, 2364] and storage is Y or N. The part number is the brand prefix with a number in [1000, 9999]. |
| MockGenerator.MockPartFrom | src/App.jsx:110-122 | A mock part keeps the library part's name, type and reason, and carries the brand and equipment type. Its supplier fields are those of `MockSupplierData`. |
| MockGenerator.MockPartBounds | src/App.jsx:110-122 | Repair level is CLM or DLM and HAT/SAT is Y or N. Quantity per assembly is in [1, 4], the 2-year quantity in [1, 3] and the 6-year quantity in [2, 6]. The supplier fields are within their ranges. |
| MockGenerator.MockPartUnit | src/App.jsx:117 | The unit of issue is one of EA, SET, KIT, BOX. |
| MockGenerator.SixYearBelowTwoYear | src/App.jsx:120-121 | The independent draws allow a 6-year quantity below the 2-year one: 2 against 3. |
| MockGenerator.MockParts | src/App.jsx:110-122 | One mock part per selected part, in order, each from its own draws. |
| MockGenerator.SelectParts | src/App.jsx:94-108 | The selection loop returns the first selectable category's parts, or the fallback when there is none. |
| MockGenerator.GenerateSpareParts | src/App.jsx:48-123 | The generator returns `SparePartsSpec`. |
| MockGenerator.MockPartsKeep | src/App.jsx:110-122 | The mock parts keep the selected parts' names, types and reasons, in order. |
| MockGenerator.MockCategory | src/App.jsx:96-101 | When category i is the first one the lower-cased type contains, the parts are that category's, in order. |
| MockGenerator.MockGeneric | src/App.jsx:103-108 | When no category matches, the parts are the two generic ones. |
| MockGenerator.SparePartsNonEmpty | src/App.jsx:48-123 | Generation always yields at least two parts. |
| MockGenerator.PartRecords | src/App.jsx:238-263 | The exported records are the parts' records, in order. |
| MockGenerator.ExportCsv | src/App.jsx:205-207 | With no job of that id there is no document. Otherwise the document is the CSV of the first such job, titled with its brand and type. |
| MockGenerator.WriteCsv | src/App.jsx:265-278 | The title lines and the row loop build `CsvDocument`. |
| MockGenerator.PreambleLines | src/App.jsx:265-267 | The preamble `CsvPreamble` is exactly three lines: the title with brand and type, the generation date, and an empty line. |
| MockGenerator.CsvTableRoundTrip | src/App.jsx:265-278 | The document starts with the preamble. The rest parses back to the header and the records' rows, by RFC 4180's quoting rules with line-feed record ends. |
| MockGenerator.TableRowsNonEmpty | src/App.jsx:236-263 | Every exported row has 22 cells. |
| MockGenerator.MockCheckpointsMonotone | src/App.jsx:132-174 | The run's progress values (0, then 15 with a PDF, then 30, 50, 70, 85, 100) never go down, starting at 0 and ending at 100. |
| MockGenerator.Session.constructor | src/App.jsx:5-13 | The initial state: no jobs, no PDF, empty inputs, not processing, progress 0. |
| MockGenerator.Session.HandlePdfUpload | src/App.jsx:16-23 | A file is kept only when present and of type `application/pdf`. |
| MockGenerator.Session.EnterDetails | src/App.jsx:416 | The brand and equipment type become what was typed. |
| MockGenerator.Session.SetProgress | src/App.jsx:132 | The progress becomes the value, and the value is recorded. |
| MockGenerator.Session.StartProcessing | src/App.jsx:125-203 | A run starts exactly when neither input is blank, and otherwise nothing changes. A run prepends the new job and replaces it by the completed one with the generated parts (`MockRunJobs`). It passes through the mock checkpoints and clears the inputs. |
| MockGenerator.Session.Run | src/App.jsx:131-192 | The body of a started run has the same effect on jobs, progress and inputs. |
| MockGenerator.Session.Begin | src/App.jsx:131-148 | Processing is set, progress reset to 0 (and recorded) and the new job put at the front. |
| MockGenerator.Session.SearchStages | src/App.jsx:152-162 | Progress passes 15 (only with a PDF), 30 and 50. |
| MockGenerator.Session.Generate | src/App.jsx:152-164 | The search stages, then the parts are `SparePartsSpec` of the trimmed inputs. |
| MockGenerator.Session.Complete | src/App.jsx:152-192 | Generation and completion: the run's job is completed with `SparePartsSpec`, progress ends at 100 and the inputs are cleared. |
| MockGenerator.Session.Finish | src/App.jsx:166-192 | Progress passes 70, 85 and 100. The run's job is replaced by the completed one, and the inputs are cleared. |
| MockGenerator.Session.FailProcessing | src/App.jsx:194-202 | The catch branch marks the run's job as failed and stops processing. |
| MockGenerator.MockRunFound | src/App.jsx:178-187 | After a run, `find` by the run's id returns the first job. It is completed, with at least two parts. |

## Left out

- The React rendering, the `stage`, `selectedJob` and `statusMessage` state, the status texts and the job list view are left out. They do not take part in generation or export.
- `alert` calls, `console.error` and the delays of `setTimeout` are left out. Only the progress values set between them are kept.
- `FileReader` is not modelled. The uploaded file's bytes are part of the `Upload` value. The `catch` inside `reader.onload` in `extractPdfText` covers only a failure of the text extraction after a successful read, and it resolves with an empty text. `ExtractText` never fails, so that branch is not modelled.
- A failed `FileReader` read is not modelled. The source sets no `onerror` handler, so the promise of `extractPdfText` never settles and the run hangs: progress stays at 20, `processing` stays true and the job stays `processing`. Every modelled run completes.
- The Blob construction, the object URL, the download link and the `.xlsx` file name are left out. The exports end with the document text.
- `generateJobId` (clock and randomness) is not modelled: the job id is a parameter. The `createdAt` timestamp is not a field of the job. The export date text (`toLocaleString('nl-NL')`) is a parameter.
- `Math.random()` is not modelled as a generator. Each call is a draw parameter within its range (`FixedDraw`, `SupplierDraw`, `PartDraw`). The comparisons `> 0.5` and `> 0.3` become booleans.
- Floating-point arithmetic is not modelled. Weights are natural numbers of hundredths. `toFixed(2)` is two-decimal rendering, and `weight * 1.3` rounds half up to hundredths.
- `FixedGenerator.CreateFullPartWeights`: a base part without a weight would give `NaN` as the packaging weight in the source. Every table entry has a weight, so the model uses weight 0 for "absent" and does not model `NaN`.
- Strings are sequences of Unicode scalar values, where JavaScript strings are sequences of UTF-16 code units. UTF-16 indexing (`substring`, `charAt`, `length`) of characters outside the Basic Multilingual Plane is not modelled: `Text.Prefix`, as used by `Records.SupplierPartNumber` for `brand.substring(0, 3)`, keeps whole characters where the source can cut a surrogate pair.
- `Text.Lower`: `toLowerCase` is modelled on ASCII letters only. Non-ASCII case mapping is not modelled.
- `Text.Upper`: `toUpperCase` is modelled on ASCII letters only. Non-ASCII case mapping is not modelled.
- `Text.Capitalize`: it upper-cases the first character with `Text.Upper`, so it also maps ASCII letters only.
- `FixedGenerator.ExportTsv`: the `!job?.results` guard is modelled as "no job with that id". A found job always holds a results array.
- `MockGenerator.ExportCsv`: same guard, same reading.
- The supplier part number is a (prefix, number) pair, rendered as `PREFIX-number` by `PartNumberText`. Every other numeric field is a number, rendered by its decimal text in the exported cell.
- The `partName` and `equipmentType` parameters of `generateMockSupplierData` are unused in the source and not modelled.
- The `try`/`catch` of `startProcessing` is a separate method, `FailProcessing`, applied to the job list. Nothing in the modelled pipeline throws, so no run ends there.
- `startProcessing` reads the `jobs` state of the render in which it was called (`[newJob, ...jobs]`). Concurrent runs and stale React state are not modelled, because each run is one atomic method.
- CSV records end with a single line feed, as `App.jsx` writes them (`csv += '\n'`), where RFC 4180 ends records with CRLF. The parser follows the exporter, not the RFC, on this point.
- `downloadAsExcel` in `App-FIXED.jsx` does not escape cells. The TSV round trip is proved only for records whose text fields hold no tab or newline.
