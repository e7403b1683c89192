# Image Memory Exhaustion Tester, modelled in Dafny

The plugin's `reproduce_memory_exhaustion` is a benchmark harness. It fetches
every attachment with `get_children`. Test 2 keeps the unattached images and
calls `previous_image_link` once for each. Test 3 calls `adjacent_image_link`
twice for every fetched record. Around each call the harness installs the
record in the global `$post` and restores it afterwards. Test 2 also sets three
flags on the shared `$wp_query` object. The harness appends a progress line
every 100 calls in Test 2 and every 50 records in Test 3. At the end it returns
a text report. `format_bytes` renders each byte count in that report.

The model has four modules:

- `Decimal` (`decimal.dfy`): the text PHP prints for a count, and for a value
  rounded to two decimals, together with parsers that read that text back.
- `ByteFormat` (`byte_format.dfy`): `format_bytes`. The unit index is the
  exact integer `floor(log_1024 size)`. The number is the exact quotient
  `size / 1024^k`, rounded half-up to hundredths. At `size >= 1024^5` the index
  points past the five-entry suffix array. The model reproduces what PHP then
  prints: a null suffix, which prints as nothing. So `1024^5` bytes render as
  `"1 "`.
- `Report` (`report.dfy`): one `Line` constructor per kind of `$output .=`
  statement, and the exact text each one appends (`Render`, `Text`). It also
  defines the progress-line cadence (`ProgressLines`, `CountProgress`).
- `Harness` (`harness.dfy`): the ambient globals, the filter, the loops and
  the whole report.
  - The globals are modelled as classes. `Context` holds `$post` and
    `$wp_query`. `Query` is the object that `$wp_query` refers to, and the
    code mutates it through a shared handle.
  - The Test 2 filter, the per-record save/overwrite/call/restore cycles,
    the two loops (methods with loop invariants) and the whole report
    (`ReportLines`) are defined here.

The WordPress functions the harness calls are parameters.
- `children` is what `get_children` returned.
- `isImage` stands for `wp_attachment_is_image`.
- The two link functions read the ambient `$post` and `$wp_query` flags. They
  receive these as arguments, so the model can state what each call saw.
- Clock, memory, `date` and `ini_get` readings are inputs (`Probes`).

## Model

| member | source | states |
|---|---|---|
| Decimal.NatText | image-memory-exhaustion-tester.php:90 | a count prints as a non-empty string of digits, with a leading zero only for 0 |
| Decimal.NatTextRoundTrip | image-memory-exhaustion-tester.php:90 | reading a printed count back gives the count |
| Decimal.DecimalTextRoundTrip | image-memory-exhaustion-tester.php:253 | the printed two-decimal number ("12", "12.5", "12.34") reads back as exactly the hundredths it was made from |
| ByteFormat.FormatBytes | image-memory-exhaustion-tester.php:246-254 | every size <= 0, including the negative memory deltas the report passes in, gives exactly "0 B" |
| ByteFormat.Magnitude | image-memory-exhaustion-tester.php:251 | the unit index k of a positive size satisfies 1024^k <= size < 1024^(k+1) |
| ByteFormat.MagnitudeUnique | image-memory-exhaustion-tester.php:251 | any k with 1024^k <= size < 1024^(k+1) is the unit index, so the index is unique |
| ByteFormat.Mantissa | image-memory-exhaustion-tester.php:251-253 | the number before rounding, size / 1024^k, lies in [1, 1024) |
| ByteFormat.RoundHundredths | image-memory-exhaustion-tester.php:253 | round(x, 2) for x >= 0 is within half a hundredth of x, with halves rounding up |
| ByteFormat.FormatBytesUnit | image-memory-exhaustion-tester.php:251-253 | for 0 < size < 1024^5, the text is size / 1024^k rounded to hundredths, a space and the k-th entry of the suffix array (B, KB, MB, GB, TB), where k is the one index with 1024^k <= size < 1024^(k+1) |
| ByteFormat.FormatBytesReadsBack | image-memory-exhaustion-tester.php:251-253 | for 0 < size < 1024^5, the text is a number, a space and a unit; the number reads back as a value in [1, 1024] within 0.005 of size / 1024^k |
| ByteFormat.FormatBytesJustUnderMebibyte | image-memory-exhaustion-tester.php:251-253 | every size from 1048571 to 1048575 bytes prints as "1024 KB": rounding can reach the next unit's threshold without switching unit |
| ByteFormat.MantissaBelowMebibyte | image-memory-exhaustion-tester.php:251 | for 1024 <= size < 1024^2 the number before rounding is size / 1024 |
| ByteFormat.FormatBytesPastTerabytes | image-memory-exhaustion-tester.php:252-253 | 1024^5 bytes print as "1 ": the suffix lookup at index 5 misses, because the suffix array has only the five entries B to TB, and the missing entry prints as nothing |
| Report.Render | image-memory-exhaustion-tester.php:61-240 | the exact text each `$output .=` statement appends, one case per kind of line, with counts printed as decimal digits and byte amounts through `format_bytes`; its property is stated by `RenderEndsLine` |
| Report.RenderEndsLine | image-memory-exhaustion-tester.php:61-240 | the text each `$output .=` statement appends is non-empty and ends with a newline, so the report is a sequence of whole lines |
| Report.TextAppend | image-memory-exhaustion-tester.php:61-64 | the text of appended lines is the appended text, so building the report with `.=` line by line gives the text of the line sequence |
| Report.ProgressTextIsText | image-memory-exhaustion-tester.php:137-141 | the text a loop appends with one `.=` per multiple of `every` equals the text of its progress lines |
| Report.ProgressLinesClosedForm | image-memory-exhaustion-tester.php:137-141 | a loop over n items that prints after each count divisible by `every` prints exactly n / every lines; the j-th line reports count every*(j+1) and the reading taken at that count |
| Report.CountProgressLines | image-memory-exhaustion-tester.php:194-198 | such a loop prints n / every progress lines of its own kind and none of the other kind |
| Harness.UnattachedImages | image-memory-exhaustion-tester.php:105-107 | the filter result is no longer than the fetch result |
| Harness.UnattachedImagesMembers | image-memory-exhaustion-tester.php:105-107 | a record is kept exactly when it was fetched, its post_parent is 0 and it is an image |
| Harness.UnattachedImagesAppend | image-memory-exhaustion-tester.php:105-107 | filtering distributes over concatenation: the kept records stay in fetch order |
| Harness.ResolvePrevious | image-memory-exhaustion-tester.php:112-134 | previous_image_link sees the attachment as $post and the three flags set. Afterwards $post and $wp_query are bound to their values from before the call. The flags stay true because the restored handle is the same object |
| Harness.ResolveAdjacent | image-memory-exhaustion-tester.php:174-191 | both adjacent_image_link calls see the attachment as $post and the current flags, with third argument true and then false. Afterwards $post is restored and $wp_query is untouched |
| Harness.PreviousRowsAt | image-memory-exhaustion-tester.php:126-130 | the Test 2 result rows are one per image: row i holds image i's link, ID and post_parent |
| Harness.AdjacentRowsAt | image-memory-exhaustion-tester.php:184-188 | the Test 3 result rows are one per record: row i holds record i's two links, with third argument true then false, and its ID |
| Harness.CallPreviousImageLink | image-memory-exhaustion-tester.php:111-142 | one call per unattached image, in fetch order. The call count is the number of images, and the rows are `PreviousRows` of the images. The globals are bound as before. The $wp_query flags are set by Test 2 when it made a call, and otherwise unchanged. The text is the 100-cadence progress lines |
| Harness.TestPreviousImageLink | image-memory-exhaustion-tester.php:101-145 | on a non-empty fetch: the count line, then the loop over the unattached images; on an empty fetch: the no-attachments notice, no call and no row, with the globals unchanged. The $wp_query flags are set by Test 2 when it made a call, and otherwise unchanged |
| Harness.CallAdjacentImageLink | image-memory-exhaustion-tester.php:173-199 | every fetched record in order, two calls per record: calls == 2 * records, and the rows are `AdjacentRows` of the records under the current flags. $post is restored and $wp_query is untouched. The text is the 50-cadence progress lines |
| Harness.TestAdjacentImageLink | image-memory-exhaustion-tester.php:168-200 | the same on a non-empty fetch; on an empty fetch no call, no row and no text |
| Harness.ReproduceMemoryExhaustion | image-memory-exhaustion-tester.php:56-243 | the returned text is `Text(ReportLines(...))`, which depends on neither the globals nor the link results. $post and $wp_query are bound as before. The $wp_query flags are set by Test 2 when it made a call (an unattached image was found), and otherwise unchanged |
| Harness.ReportLines | image-memory-exhaustion-tester.php:61-240 | the report lines: the header, Test 1-3, overall and memory-limit sections in source order, with the usage line only when the limit is not '-1'; its properties are stated by `ReportLinesShape` and the progress-count lemmas |
| Harness.ReportLinesShape | image-memory-exhaustion-tester.php:61-240 | the report starts with the title and ends with the usage line, or with the limit line when the limit is '-1'. It has 28 lines besides those of the two loop sections (`PreviousLoopLines`, `AdjacentLoopLines`); in closed form, 29 + (unattached images) / 100 + (records) / 50 lines, plus the usage line only when the limit is not '-1' |
| Harness.ReportProgressCounts | image-memory-exhaustion-tester.php:101-200 | the report holds (number of unattached images) / 100 Test 2 progress lines and (number of records) / 50 Test 3 progress lines |
| Harness.EmptyFetchReport | image-memory-exhaustion-tester.php:143-145 | an empty fetch reports 0 attachments found, the no-attachments notice, 0 previous calls, 0 images tested, 0 adjacent calls and 0 attachments tested |
| Harness.ThreeRecordScenario | image-memory-exhaustion-tester.php:104-188 | with A (unattached image), B (unattached non-image) and C (attached image), Test 2 tests only A with 1 call, and Test 3 makes 6 calls over 3 records |

## Left out

- The admin menu, the admin page, its form and the nonce check (lines 13-54) are UI and hooks with no logic.
- `get_children`, `wp_attachment_is_image`, `previous_image_link` and `adjacent_image_link` are WordPress code and are not part of this model.
  - The fetch result is an input.
  - The other three are arbitrary total functions.
  - The link functions are modelled as depending only on `$post` and the three `$wp_query` flags.
  - Anything they print, and any global they change, is not modelled.
- `setup_postdata` and `wp_reset_postdata` are not part of this model. The model assumes neither rebinds `$post` or `$wp_query`. WordPress's `wp_reset_postdata` can copy `$wp_query->post` into `$post`, and this model does not capture that.
- `adjacent_image_link`'s arguments: the model passes the third positional argument as the source does (true, then false) and does not interpret which neighbour each call asks for.
- Clock, memory, `date` and `ini_get` readings are inputs.
  - The rounded elapsed times (`round(..., 4)`) are opaque strings.
  - The memory-usage percentage is an opaque string, because it depends on float division and on `wp_convert_hr_to_bytes`. Only whether its line appears (limit not `'-1'`) is modelled.
- `ByteFormat.FormatBytes` at 1024^5 bytes or more: PHP reads the missing `$suffixes[5]` as null, which the model prints as nothing. PHP also raises an "Undefined array key" warning (a notice before PHP 8), which the model does not capture.
- `ByteFormat.FormatBytes` uses exact integer and real arithmetic instead of PHP floats for `log`, `floor` and `pow`.
  - With PHP floats an exact power of 1024 can land one unit low.
  - `round` can pre-round differently.
  - The `$precision` parameter is fixed at its default of 2, which is the only value the source uses.
- Exception safety is not modelled. The source has no `try`/`finally` around the link calls, so restoration is proved only for calls that return normally. Guaranteed restoration on failure was intended, but this code does not provide it. The model follows the code.
- The progress cadences of 100 and 50 are constants, as in the source. The cadence lemmas hold for any positive cadence.
- PHP array keys are not modelled. `array_filter` preserves keys; only the order of values matters to the loops.
- `$post` is modelled as only the id and `post_parent` of a record, or no post.
- The result rows `$previous_results` and `$adjacent_results` are returned by the loop methods. As in the source, the report prints only their counts.
