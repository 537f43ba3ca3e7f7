# taxify extraction core in Dafny

taxify turns scanned and digital tax documents into structured JSON: W-2, 1099-INT, Schedule K-1 (Form 1065), Schedule K-3, Form 8805 and Form 8804. A vision model reads each page image. The Python code around that call is deterministic, and this project models it:

- **Page classification** (`PageDetect`, `PageRanges`, `FormDetector`). The text-signature rules of the K-1, K-3, 8805 and 8804 page detectors, the share of the document that is scanned, and the folding of matching pages into maximal runs. Also the upload screen's OCR and file-name detector.
- **Reply cleaning** (`Fences`, `Text`). The per-extractor `_clean_json_response`, the vision client's `_parse_json` and the extract endpoint's own fence stripping.
- **Normalisation** (`Flatten`, `W2Transform`, `Int1099Transform`, `K1Transform`, `PlaneRead`, `Boxes`). `flatten_dict`, the alias lookup with number and checkbox coercion, and the rebuilding of each form's fixed schema from whatever the model answered.
- **OCR fallback** (`OcrFallback`). The year search, the amount patterns, the listed-keyword lookups, and the fixed schemas the extractors fill when no model is available.
- **Consolidation** (`Batch`, `K3Merge`, `K3Batch`). Metadata found first wins, page tagging of K-1 partner records, one form per 8805/8804 range, and the K-3 first-non-empty merge of part items.
- **API arithmetic** (`Grouping`, `Extract`, `Regions`, `Retry`, `Camel`). Grouping pages by type, ten-page chunks, handing forms back to pages, `api_calls_made`, form regions, the retry-with-backoff decision, and the camelCase rename of every response.
- **W-2 prompt validation** (`W2Checks`, `BugHistory`). The validation script's Box 12, copy-type, value-copying, Box 12 shifting and checkbox checks, and its bug-history diff across runs.

JSON values are the `Json` datatype. Objects keep their fields in insertion order, because alias lookup and `dict(...)` depend on it. Amounts are `real`. Every Python exception that escapes on malformed model output is an `Err` of `Result`.

Some things come in as parameters:
- `float()` on a string and `str()` of a non-string value come in through the `Host` record.
- The model's replies come in as functions from request to reply.
- Page texts come in as sequences of strings.
- The clock is a `now` string.

Each regular expression other than the tax-year search `20[12][0-9]` is an input giving its first match.

Where the code and the repository's own tests disagree, the model follows the code:
- `tests/test_transformer.py` expects 5 identification items and 4 box groups in a W-2. `transform_to_w2_structure` builds 6 identification items (it adds `dept`) and 5 groups (it adds "additional"). `W2Transform` states the 6 and the 5.
- The extract endpoint strips "```json" and "```" with two independent `if`s. The extractors use `if`/`elif`. `Fences.EndpointCleanDiffers` exhibits a reply the two clean differently.

## Model

| member | source | states |
|---|---|---|
| PageRanges.Run | taxifyl-staging/taxifyl-staging/forms/form_k3/extractor.py:420-421 | `range(start, end + 1)` holds `end - start + 1` pages when `start <= end` and none otherwise |
| PageRanges.Group | taxifyl-staging/taxifyl-staging/forms/form_k3/extractor.py:379-400 | there are no ranges exactly when there are no pages, and the last range ends at the last page |
| PageRanges.ExpandGroup | taxifyl-staging/taxifyl-staging/forms/form_k3/extractor.py:384-422 | round trip: expanding the ranges of any page list, as `detect_k3_pages` does, gives back exactly that list |
| PageRanges.GroupProper | taxifyl-staging/taxifyl-staging/forms/form_k3/extractor.py:384-400 | every range has `start <= end`, and no range ends on the page just before the next one starts (the runs are maximal) |
| PageRanges.GroupSeparated | taxifyl-staging/taxifyl-staging/forms/form_k3/extractor.py:384-400 | for strictly increasing pages the ranges are sorted and non-overlapping, with at least one missing page between neighbours |
| PageRanges.GroupFirst | taxifyl-staging/taxifyl-staging/forms/form_k3/extractor.py:385-387 | the first range starts at the first matching page |
| PageDetect.PartIAlternativeIsDead | taxifyl-staging/taxifyl-staging/forms/form_8804/extractor.py:372 | the as-written Part I test holds exactly when the text has "Part I" and "Partnership": a lower-cased text never contains "Name of partnership" |
| PageDetect.PartIAcceptsAnyCase | taxifyl-staging/taxifyl-staging/forms/form_8804/extractor.py:372 | with the corrected needle, "Part I" plus a partnership-name caption in any capitalisation passes the Part I test |
| PageDetect.CorrectionOnlyAdds | taxifyl-staging/taxifyl-staging/forms/form_8804/extractor.py:372-394 | every page the as-written 8804 test accepts is also accepted by the corrected one |
| PageDetect.MainFormMissedAsWritten | taxifyl-staging/taxifyl-staging/forms/form_8804/extractor.py:363-394 | a main Form 8804 page whose Part I says only "Name of partnership" is rejected as written and accepted once corrected |
| PageDetect.PageKindsExclusive | taxifyl-staging/taxifyl-staging/forms/form_8805/extractor.py:405-417 | no page is both K-3 and K-1 start; an 8805 or 8804 page is never a K-1 or K-3 page; an 8804 page never says "Form 8805"; an 8805 page is never a Schedule K-1 (Form 8804) |
| PageDetect.Overlap8804And8805 | taxifyl-staging/taxifyl-staging/forms/form_8804/extractor.py:377-394 | a page with the partner 1446 title, "Copy B" and "8805" but no form name is claimed by both the 8804 and 8805 detectors |
| PageDetect.Trunc | taxifyl-staging/taxifyl-staging/forms/form_k3/extractor.py:363 | Python's `int()` truncates toward zero: the result is within one of its argument, on the side of zero |
| PageDetect.ScanLimitBounds | taxifyl-staging/taxifyl-staging/forms/form_k3/extractor.py:363 | the scan bound is the page count at 100 percent, between 0 and the page count for percentages in 0..100, and past the document for large enough percentages |
| PageDetect.MatchingPagesFacts | taxifyl-staging/taxifyl-staging/forms/form_k3/extractor.py:366-374 | the scan returns exactly the 1-based numbers of the accepted pages among the first `limit`, strictly increasing |
| PageDetect.RangesWithin | taxifyl-staging/taxifyl-staging/forms/form_8805/extractor.py:384-456 | the ranges are proper, maximal and separated, and a page is covered exactly when it is within the scan bound and accepted; a bound past the document (an IndexError caught by the detector) gives no ranges |
| PageDetect.MatchesGrouped | taxifyl-staging/taxifyl-staging/forms/form_8804/extractor.py:351-428 | grouping the scan's matches gives proper, maximal, separated ranges covering exactly the accepted pages within the bound |
| PageDetect.DetectRanges | taxifyl-staging/taxifyl-staging/forms/form_k3/extractor.py:338-410 | the range detectors (K-3, 8805 and 8804 share the code) return proper, maximal, separated ranges covering exactly the accepted pages within the scanned percentage |
| PageDetect.GroupFacts | taxifyl-staging/taxifyl-staging/forms/form_8805/extractor.py:428-446 | grouping a strictly increasing list gives proper, maximal, separated ranges whose expansion is the list |
| PageDetect.DetectK3Pages | taxifyl-staging/taxifyl-staging/forms/form_k3/extractor.py:412-422 | at the default 100 percent, `detect_k3_pages` lists exactly the pages with "Schedule K-3" and without "Schedule K-1" |
| PageDetect.DetectK1Pages | taxifyl-staging/taxifyl-staging/forms/form_k1/extractor.py:317-379 | `detect_k1_pages` returns strictly increasing 1-based start pages that carry all four K-1 markers, at most `max_k1_pages` of them, equal to the loop-free description of the scan |
| PageDetect.ScanK1Pages | taxifyl-staging/taxifyl-staging/forms/form_k1/extractor.py:350-370 | the scan loop with its early exit computes the first `cap` matches among the scanned pages, or nothing when the bound runs past the document first |
| PageDetect.K1ScanFacts | taxifyl-staging/taxifyl-staging/forms/form_k1/extractor.py:350-370 | the K-1 pages are strictly increasing, are start pages of the document, and number at most the cap |
| PageDetect.MatchingPrefix | taxifyl-staging/taxifyl-staging/forms/form_k1/extractor.py:350-368 | stopping the scan earlier yields a prefix of the later matches |
| PageDetect.Is8804PageAsWritten | taxifyl-staging/taxifyl-staging/forms/form_8804/extractor.py:363-394 | a page the as-written 8804 test accepts never mentions Form 8805 or Schedule K-3, and the corrected test accepts it too |
| PageDetect.DetectK3PageRanges | taxifyl-staging/taxifyl-staging/forms/form_k3/extractor.py:338-410 | the K-3 ranges are proper, maximal and separated, and at 100 percent a page is covered exactly when it is in the document and has "Schedule K-3" without "Schedule K-1" |
| PageDetect.Detect8805PageRanges | taxifyl-staging/taxifyl-staging/forms/form_8805/extractor.py:358-456 | the 8805 ranges are proper, maximal and separated, and at 100 percent a page is covered exactly when it is in the document and passes the 8805 page test |
| PageDetect.Detect8804PageRanges | taxifyl-staging/taxifyl-staging/forms/form_8804/extractor.py:326-428 | as written, the 8804 ranges are proper, maximal and separated, and at 100 percent cover exactly the pages the as-written 8804 test accepts |
| PageDetect.Detect8804PageRangesCorrected | taxifyl-staging/taxifyl-staging/forms/form_8804/extractor.py:326-428 | with the corrected Part I check, the 8804 ranges are proper, maximal and separated, and at 100 percent cover exactly the pages the corrected test accepts |
| FormDetector.FirstPassing | taxifyl-staging/taxifyl-staging/app.py:1284-1287 | the position returned is that of an element that passes, or the length when none does, and no earlier element passes |
| FormDetector.FirstPassingAt | taxifyl-staging/taxifyl-staging/app.py:1284-1287 | the first passing element is the one the search stops at |
| FormDetector.FindForm | taxifyl-staging/taxifyl-staging/app.py:1292 | `SUPPORTED_FORMS.get(t)` finds a table entry of type `t`, or nothing when no entry has that type |
| FormDetector.FindFormAt | taxifyl-staging/taxifyl-staging/app.py:247 | an entry whose type no earlier entry shares is the one looked up under its type |
| FormDetector.TextHit | taxifyl-staging/taxifyl-staging/app.py:1284-1287 | the OCR pass stops at the first supported form one of whose patterns, upper-cased, occurs in the upper-cased text |
| FormDetector.NameHit | taxifyl-staging/taxifyl-staging/app.py:1290-1314 | the file-name pass stops at the first rule, in source order, whose needle occurs in the upper-cased name |
| FormDetector.FirstPassingBelow | taxifyl-staging/taxifyl-staging/app.py:1284-1287 | a passing element at position `k` means the search stops at `k` or earlier |
| FormDetector.RuleFormMatches | taxifyl-staging/taxifyl-staging/app.py:1290-1314 | every file-name rule names a form type that the supported-forms table has |
| FormDetector.NoUnknownForm | taxifyl-staging/taxifyl-staging/app.py:247 | no supported form has the type "UNKNOWN" |
| FormDetector.InfoOfEntry | taxifyl-staging/taxifyl-staging/app.py:247 | looking up an entry's own type gives back that entry |
| FormDetector.TypesDistinct | taxifyl-staging/taxifyl-staging/app.py:247 | the supported form types are pairwise distinct |
| FormDetector.RecognisedFirst | taxifyl-staging/taxifyl-staging/app.py:1281-1287 | when the first recognised form is `i`, detection returns its type with its own table entry, whatever the file name |
| FormDetector.NamedFirst | taxifyl-staging/taxifyl-staging/app.py:1289-1314 | with no pattern in the text, the first rule that fires gives the type, and the info is the table entry of that type |
| FormDetector.DetectByName | taxifyl-staging/taxifyl-staging/app.py:1289-1316 | once the OCR pass finds nothing, detection is decided by the file-name pass alone |
| FormDetector.NameHitAt | taxifyl-staging/taxifyl-staging/app.py:1290-1314 | the first rule that fires is the one the file-name pass picks |
| FormDetector.RuleInfo | taxifyl-staging/taxifyl-staging/app.py:1290-1314 | `SUPPORTED_FORMS.get` of any rule's type yields an entry of the table with that type |
| FormDetector.UnknownExactly | taxifyl-staging/taxifyl-staging/app.py:1281-1316 | the result is "UNKNOWN" exactly when no text pattern and no file-name rule matches, and the info is None exactly then |
| FormDetector.TextOverridesName | taxifyl-staging/taxifyl-staging/app.py:1284-1287 | once the OCR text recognises a form, the file name does not change the result |
| FormDetector.UpperOfUnchanged | taxifyl-staging/taxifyl-staging/app.py:1286 | upper-casing a pattern with no lower-case letters leaves it unchanged |
| FormDetector.Form1065TextIsNeverK3 | taxifyl-staging/taxifyl-staging/app.py:1284-1287 | OCR text containing "1065" is never detected as K-3, 8805 or 8804, because a K-1 pattern comes first |
| FormDetector.Name1099IsA1099 | taxifyl-staging/taxifyl-staging/app.py:1290-1305 | without recognisable text, a file name mentioning 1099 is always detected as W-2, 1099-INT, 1099-NEC or 1099-MISC |
| FormDetector.EarlyRulesName1099s | taxifyl-staging/taxifyl-staging/app.py:1291-1305 | the first six file-name rules name W-2 or a 1099 form |
| FormDetector.AllyStatementIsInterest | taxifyl-staging/taxifyl-staging/app.py:1301-1302 | an Ally statement mentioning 1099 is read as a 1099-INT when no earlier rule fires |
| Retry.RetryFrom | taxifyl-staging/api.py:669-693 | from any attempt, the calls stop within three attempts; sleeps double each time; the result is an answer exactly when the last call answered; every earlier call raised a transient error; a failure ends in the last attempt or with a non-transient error |
| Retry.RetryLoop | taxifyl-staging/api.py:664-693 | at most 3 calls; the sleeps are the first `calls - 1` of 2 s and 4 s; earlier calls all raised transient errors; a failure ends on the third attempt or with a non-transient error |
| Retry.RetryRecovers | taxifyl-staging/api.py:669-693 | when attempt `k` answers after `k` transient failures, exactly `k + 1` calls are made with the first `k` sleeps |
| Retry.RetryGivesUp | taxifyl-staging/api.py:685-693 | a non-transient first failure is raised after one call with no sleep |
| Retry.RetryFromMonotone | taxifyl-staging/api.py:688 | a policy that retries on more errors makes at least as many calls, and agrees with the narrower one wherever that one answers |
| Retry.ExtractRetriesAtLeastAsLong | taxifyl-staging/api.py:306 | the extraction loop makes at least as many calls as the detection loop, and gives the same result wherever detection answers |
| Retry.OverloadedOnlyRetriedByExtraction | taxifyl-staging/api.py:688 | an "overloaded" error with no status code ends detection at once but is retried by extraction |
| Retry.OverloadedMessage | taxifyl-staging/api.py:688 | the message "Model Overloaded" is transient for extraction and not for detection |
| Retry.OverloadedLower | taxifyl-staging/api.py:688 | lower-casing "Model Overloaded" gives a text containing "overloaded" |
| Retry.NoDigits | taxifyl-staging/api.py:306 | a message without the digits 5 and 4 mentions neither 503 nor 429 |
| Regions.PdfRegions | taxifyl-staging/api.py:354-370 | for `n > 0` forms there are exactly `n` regions; region `i` has index `i`, spans the full width from `x = 0`, and takes `detected_types[i]`, else `detected_types[0]`, else "Unknown" |
| Regions.PdfRegionsTile | taxifyl-staging/api.py:358-368 | the strips start at `y = 0`, each starts where the one before ends, all are `H // n` tall, and less than `n` rows stay uncovered at the bottom |
| Regions.NextStrip | taxifyl-staging/api.py:366 | strip `i + 1` starts one strip height below strip `i` |
| Regions.RegionTypesFromDetection | taxifyl-staging/api.py:360 | region `i` takes the `i`-th detected type when there is one, a type of the page when the page has types, and "Unknown" otherwise |
| Regions.PdfPages | taxifyl-staging/api.py:333-378 | no more entries than reports, and every entry's page number is between 1 and the page count |
| Regions.PdfPagesKeepValid | taxifyl-staging/api.py:335-337 | exactly the reports with a page number in `[1, len(doc)]` are rendered, one entry each, and only those |
| Regions.ImageRegions | taxifyl-staging/api.py:388-400 | an image gets one region per reported form, each with the derived type, its index and an all-zero box |
| Regions.ImagePage | taxifyl-staging/api.py:381-408 | an upload is page 1, described by the first report when there is one and otherwise as one "Unknown" form with one region |
| Retry.DetectAttempts | taxifyl-staging/api.py:285-312 | the detection loop makes one to three calls, sleeping 2 s then 4 s between them; it answers exactly when its last call answered, and every earlier call raised an error mentioning 503 or 429 |
| Retry.ExtractAttempts | taxifyl-staging/api.py:664-693 | the extraction loop makes one to three calls with the same sleeps; it answers exactly when its last call answered, and every earlier call raised an error mentioning 503 or 429 or, lower-cased, "overloaded" |
| Regions.RenderPage | taxifyl-staging/api.py:338-376 | a kept PDF page keeps its number, form count and types, and gets one region per form (none for a count of zero or less), region `i` numbered `i`, typed from the detection and as wide as the rendered page |
| Text.StripLeft | taxifyl-staging/taxifyl-staging/forms/form_k1/extractor.py:180 | the left strip keeps a suffix of the text, drops only whitespace, and does not start with whitespace |
| Text.StripRight | taxifyl-staging/taxifyl-staging/forms/form_k1/extractor.py:187 | the right strip keeps a prefix of the text, drops only whitespace, and does not end with whitespace |
| Text.StripSpec | taxifyl-staging/taxifyl-staging/forms/form_k1/extractor.py:187 | `strip()` keeps one contiguous slice of the text and removes only whitespace on either side of it |
| Text.StripIdempotent | taxifyl-staging/taxifyl-staging/forms/form_k1/extractor.py:187 | stripping twice is stripping once |
| Text.StripSurrounded | taxifyl-staging/taxifyl-staging/forms/form_k1/extractor.py:180 | whitespace around a text does not change its strip |
| Text.StripKeeps | taxifyl-staging/taxifyl-staging/forms/form_k1/extractor.py:187 | a text that neither starts nor ends with whitespace is its own strip |
| Text.StripKeepsAbsent | taxifyl-staging/taxifyl-staging/forms/form_k1/extractor.py:187 | `strip()` only removes characters, so a character absent before is absent after |
| Text.ContainsLower | taxifyl-staging/taxifyl-staging/app.py:1286 | a substring of a text, lower-cased, is a substring of the lower-cased text |
| Text.ContainsUpper | taxifyl-staging/taxifyl-staging/app.py:1286 | a substring of a text, upper-cased, is a substring of the upper-cased text |
| Text.LowerNeverContainsUpper | taxifyl-staging/taxifyl-staging/forms/form_8804/extractor.py:372 | a lower-cased text never contains a needle with an upper-case letter |
| Text.RemoveChars | taxifyl-staging/taxifyl-staging/app.py:390 | `replace('$', '').replace(',', '')` leaves none of the removed characters and never lengthens the text |
| Text.RemoveCharsAbsent | taxifyl-staging/taxifyl-staging/app.py:390 | removing characters that do not occur changes nothing |
| Text.RemoveCharsKeeps | taxifyl-staging/taxifyl-staging/app.py:390 | removal introduces no new character |
| Text.Split | taxifyl-staging/api.py:178 | `split('_')` gives at least one piece and no piece holds the separator |
| Text.JoinSplit | taxifyl-staging/api.py:178 | joining the pieces of a split with the separator gives back the text |
| Text.FirstIndexAt | taxifyl-staging/api.py:178 | the first separator is at `k` when position `k` holds it and no earlier one does |
| Text.NatToString | taxifyl-staging/taxifyl-staging/forms/form_k3/extractor.py:594-595 | `str(n)` of a page number is a non-empty string of decimal digits |
| Text.NatToStringValue | taxifyl-staging/taxifyl-staging/forms/form_k3/extractor.py:594-595 | reading the decimal digits of `str(n)` back gives `n` |
| Text.NatToStringInjective | taxifyl-staging/taxifyl-staging/forms/form_k3/extractor.py:595 | different page numbers print differently |
| Fences.Unfence | taxifyl-staging/taxifyl-staging/forms/form_k1/extractor.py:181-186 | dropping the fences never lengthens the text |
| Fences.CleanJsonStripped | taxifyl-staging/taxifyl-staging/forms/form_k1/extractor.py:178-187 | the cleaned reply carries no surrounding whitespace |
| Fences.CleanJsonFenced | taxifyl-staging/taxifyl-staging/forms/form_k1/extractor.py:178-187 | round trip: a body wrapped in a "```json" fence and a closing fence cleans to the stripped body |
| Fences.CleanBareFenced | taxifyl-staging/forms/form_1099int/extractor.py:178-187 | a body wrapped in bare "```" fences cleans to the stripped body unless the body begins with "json" |
| Fences.CleanJsonUnfenced | taxifyl-staging/taxifyl-staging/forms/w2/extractor.py:185-194 | a reply with no fence cleans to its plain strip |
| Fences.UnfenceUnfenced | taxifyl-staging/taxifyl-staging/forms/w2/extractor.py:188-193 | with no opening and no closing fence, fence removal changes nothing |
| Fences.CleanJsonIgnoresSurroundingSpace | taxifyl-staging/taxifyl-staging/forms/form_k1/extractor.py:180 | whitespace around the reply never changes the cleaned text |
| Fences.ParseExtractorReply | taxifyl-staging/taxifyl-staging/forms/form_k1/extractor.py:170-176 | a parsable cleaned reply is returned as parsed; otherwise the result is an error record whose `raw_response` is the original reply |
| Fences.ExtractorError | taxifyl-staging/taxifyl-staging/forms/form_k1/extractor.py:176 | the failure record has an "error" key and carries the reply under `raw_response` |
| Fences.VisionParseJson | taxifyl-staging/taxifyl-staging/app.py:1422-1430 | `_parse_json` returns the parsed cleaned text, or an error record whose `raw` is the reply with its fences removed |
| Fences.VisionError | taxifyl-staging/taxifyl-staging/app.py:1430 | the failure record has an "error" key and carries the text under `raw` |
| Fences.EndpointCleanDiffers | taxifyl-staging/api.py:718-725 | on "```json" followed by a second "```" fence, the extractors keep the second fence and the endpoint's two independent `if`s remove it |
| Fences.StripKeepsFenced | taxifyl-staging/api.py:718 | a fenced body that ends in a non-space character is unchanged by `strip()` |
| Fences.CanonicalDoubleFence | taxifyl-staging/taxifyl-staging/forms/form_k1/extractor.py:181-186 | behind a "```json" fence the extractors' `elif` keeps a second opening fence |
| Fences.EndpointDoubleFence | taxifyl-staging/api.py:719-724 | behind a "```json" fence the endpoint's second `if` removes a second opening fence too |
| Fences.EndpointCleanAgrees | taxifyl-staging/api.py:718-725 | on replies without a second opening fence after "```json", the endpoint and the extractors clean alike |
| Fences.UnfenceAgrees | taxifyl-staging/api.py:719-724 | the two fence removals agree unless "```json" is followed by "```" |
| Json.Keys | taxifyl-staging/api.py:183 | the keys of a dictionary, one per field, in insertion order |
| Json.HasKeyAt | taxifyl-staging/api.py:183 | every field's key is a key of the dictionary |
| Json.Lookup | taxifyl-staging/taxifyl-staging/app.py:1520-1521 | `d.get(k)` finds something exactly when `k` is a key, and what it finds is stored under `k` |
| Json.LookupFirst | taxifyl-staging/taxifyl-staging/app.py:1520-1521 | a field that no earlier field shadows is what `d.get` finds |
| Json.IndexOf | taxifyl-staging/taxifyl-staging/forms/form_k3/extractor.py:572-575 | the first position holding `k` is where `d.get(k)` reads from |
| Json.Put | taxifyl-staging/taxifyl-staging/forms/form_k3/extractor.py:572-576 | `d[k] = v` keeps the key order when `k` is present and appends `k` otherwise |
| Json.PutLookup | taxifyl-staging/taxifyl-staging/forms/form_k3/extractor.py:572-576 | after `d[k] = v`, `d[k]` is `v` and every other key reads as before |
| Json.PutKeepsUnique | taxifyl-staging/taxifyl-staging/forms/form_k3/extractor.py:572-576 | assignment keeps the keys distinct |
| Json.PutAbsent | taxifyl-staging/taxifyl-staging/forms/form_k3/extractor.py:572-576 | assigning a new key appends the field |
| Json.PutFrom | taxifyl-staging/taxifyl-staging/forms/form_k3/extractor.py:572-576 | every field after an assignment was there before or is the assigned one |
| Json.FromPairs | taxifyl-staging/api.py:183 | a dictionary comprehension yields distinct keys |
| Json.FromPairsFrom | taxifyl-staging/api.py:183 | a dictionary comprehension holds only pairs it was given |
| Json.FromPairsOfUnique | taxifyl-staging/api.py:183 | pairs whose keys are already distinct are kept as given |
| Json.FromPairsLookup | taxifyl-staging/api.py:183 | in `dict(pairs)` each key reads as the last value given for it |
| Json.Get | taxifyl-staging/taxifyl-staging/app.py:1519-1521 | `j.get(k)` finds something exactly when `j` is a dictionary holding `k` |
| Camel.Concat | taxifyl-staging/api.py:179 | `''.join(parts)` holds only characters of its parts |
| Camel.TitleAll | taxifyl-staging/api.py:179 | the title-cased pieces, one per piece |
| Camel.TitleKeepsUnderscoreOut | taxifyl-staging/api.py:179 | title-casing never produces a `_` |
| Camel.ToCamel | taxifyl-staging/api.py:177-179 | `to_camel` output holds no `_`, and a key without `_` is kept as it is |
| Camel.Camelize | taxifyl-staging/api.py:181-186 | `camelize_dict` keeps dictionaries as dictionaries, lists as lists of the same length, and scalars unchanged |
| Camel.CamelPairs | taxifyl-staging/api.py:183 | the comprehension pairs each renamed key with its renamed value, in field order |
| Camel.CamelPairsAt | taxifyl-staging/api.py:183 | the i-th pair is the renamed i-th key with the renamed i-th value |
| Camel.ToSnakeAppend | taxifyl-staging/api.py:177-179 | the inverse rename works piece by piece |
| Camel.ToSnakeOfLower | taxifyl-staging/api.py:177-179 | text without capitals is its own inverse rename |
| Camel.WordHasNoCapital | taxifyl-staging/api.py:177-179 | a snake_case piece holds no capital letter |
| Camel.TitleOfWord | taxifyl-staging/api.py:179 | title-casing a snake_case piece raises its first letter and keeps the rest |
| Camel.SnakeOfTitled | taxifyl-staging/api.py:179 | undoing a title-cased piece restores the `_` in front of it |
| Camel.SnakeOfCamelParts | taxifyl-staging/api.py:177-179 | undoing the rename of the pieces gives back `'_'.join(pieces)` |
| Camel.CamelRoundTrip | taxifyl-staging/api.py:177-179 | round trip: on snake_case keys, undoing `to_camel` gives the key back |
| Camel.CamelInjective | taxifyl-staging/api.py:177-179 | two different snake_case keys never collide after `to_camel` |
| Camel.CamelizeCamelizes | taxifyl-staging/api.py:181-186 | the output has no `_` in any key at any depth, and keys are distinct at every depth |
| Camel.CamelizeFixes | taxifyl-staging/api.py:181-186 | an already camelized value comes back unchanged |
| Camel.CamelizeIdempotent | taxifyl-staging/api.py:181-186 | renaming twice is renaming once |
| Camel.CamelizeSnakeFields | taxifyl-staging/api.py:181-186 | a dictionary with distinct snake_case keys keeps every field in its place, the key renamed and the value camelized |
| Text.Strip | taxifyl-staging/taxifyl-staging/forms/form_k1/extractor.py:187 | `strip()` never lengthens the text and leaves no whitespace at either end |
| Text.Upper | taxifyl-staging/taxifyl-staging/app.py:1286 | `upper()` keeps the length, leaves no lower-case ASCII letter and changes no character that is not one |
| Text.Lower | taxifyl-staging/taxifyl-staging/forms/form_8804/extractor.py:372 | `lower()` keeps the length, leaves no ASCII capital and changes no character that is not one |
| Text.Title | taxifyl-staging/api.py:179 | `title()` keeps the length and raises a letter at the start of a word and lowers one inside a word |
| Text.TitleCapitals | taxifyl-staging/api.py:179 | after `title()` a letter is a capital exactly when it starts a word |
| Flatten.FlattenDict | taxifyl-staging/taxifyl-staging/app.py:519-535 | `flatten_dict` yields a dictionary: its keys are distinct |
| Flatten.Flat | taxifyl-staging/taxifyl-staging/app.py:370 | the flattened input, empty when the input is not a dictionary, has distinct keys |
| Flatten.FlattenDictNoDicts | taxifyl-staging/taxifyl-staging/app.py:519-535 | no value of a flattened dictionary is itself a dictionary |
| Flatten.FieldItemsNoDicts | taxifyl-staging/taxifyl-staging/app.py:523-534 | the pairs collected for the fields from any position on hold no dictionary value |
| Flatten.ValueItemsNoDicts | taxifyl-staging/taxifyl-staging/app.py:525-534 | the pairs collected for one value hold no dictionary value |
| Flatten.ListItemsNoDicts | taxifyl-staging/taxifyl-staging/app.py:528-532 | the pairs collected for a list's elements hold no dictionary value |
| Flatten.StartsWithPrefix | taxifyl-staging/taxifyl-staging/app.py:524 | a key that starts with `parent_k` starts with `parent` |
| Flatten.FlattenDictKeys | taxifyl-staging/taxifyl-staging/app.py:519-535 | below a non-empty parent key, every flattened key starts with `parent_` |
| Flatten.FieldItemsKeys | taxifyl-staging/taxifyl-staging/app.py:523-534 | the keys collected for the fields of a nested dictionary all start with `parent_` |
| Flatten.ValueItemsKeys | taxifyl-staging/taxifyl-staging/app.py:525-534 | the keys collected for one value all start with that value's key |
| Flatten.ListItemsKeys | taxifyl-staging/taxifyl-staging/app.py:528-532 | the keys collected for a list's elements all start with the list's key |
| Flatten.FlattenOfFlat | taxifyl-staging/taxifyl-staging/app.py:519-535 | a dictionary of leaves with distinct keys flattens to itself |
| Flatten.FieldItemsOfFlat | taxifyl-staging/taxifyl-staging/app.py:533-534 | at the top level, leaf fields are collected unchanged from any position on |
| Flatten.FlattenNested | taxifyl-staging/taxifyl-staging/app.py:519-535 | `{a: {b: {c: leaf}}}` flattens to `{a_b_c: leaf}` |
| Flatten.FlattenList | taxifyl-staging/taxifyl-staging/app.py:527-532 | `{a: [x, y]}` with non-dictionary elements flattens to `{a_0: x, a_1: y}` |
| Flatten.FindIn | taxifyl-staging/taxifyl-staging/app.py:376-379 | one alias finds nothing exactly when no key holding a usable value contains it (case-insensitively); otherwise it finds the first such pair's value, which is usable |
| Flatten.FirstAliasHitTail | taxifyl-staging/taxifyl-staging/app.py:374-379 | when the first alias finds nothing, the lookup's first hit belongs to the remaining aliases |
| Flatten.FindValue | taxifyl-staging/taxifyl-staging/app.py:373-380 | `find_value` returns the default when no alias matches, and otherwise the value of the first matching pair for the first alias (in alias order) that matches; a non-default answer is never None, "" or "N/A" |
| Flatten.FirstAliasHitHead | taxifyl-staging/taxifyl-staging/app.py:374-379 | when the first alias matches, the lookup's hit is that alias's first matching pair |
| Flatten.FindValueFinds | taxifyl-staging/taxifyl-staging/app.py:373-380 | a usable value under some alias means the lookup does not fall back to the default |
| Flatten.FirstAlias | taxifyl-staging/taxifyl-staging/app.py:374 | among aliases up to `a` that match, there is a first one, and no alias before it matches |
| Flatten.FirstPair | taxifyl-staging/taxifyl-staging/app.py:376-379 | an alias that matches something has a first matching pair |
| PyOps.PyStr | taxifyl-staging/taxifyl-staging/app.py:417 | `str(v)` of a string is the string, and of None is "None" |
| PyOps.PyIn | taxifyl-staging/taxifyl-staging/forms/form_k3/extractor.py:511 | `k in x` tests the keys of a dictionary, substrings of a string and elements of a list, and raises on any other value |
| PyOps.PyIndex | taxifyl-staging/taxifyl-staging/forms/form_k3/extractor.py:525 | `x[k]` succeeds exactly on a dictionary holding `k` and yields what `get` finds |
| PyOps.PyGet | taxifyl-staging/taxifyl-staging/forms/form_k3/extractor.py:528-531 | `x.get(k, default)` raises on a non-dictionary, gives the stored value when `k` is present and the default otherwise |
| PyOps.Field | taxifyl-staging/taxifyl-staging/forms/form_k3/extractor.py:528-531 | on a dictionary, `get` never raises |
| PyOps.PyIter | taxifyl-staging/taxifyl-staging/forms/form_k3/extractor.py:555-556 | `for e in x` visits a list's items, a dictionary's keys or a string's characters, raises on other values, and visits something exactly when `x` is truthy |
| PyOps.Enumerate | taxifyl-staging/taxifyl-staging/app.py:1095 | a loop over `enumerate(xs)` succeeds exactly when every step succeeds, giving one result per element in order; otherwise it raises the first failure |
| PyOps.PyLen | taxifyl-staging/taxifyl-staging/forms/form_k3/extractor.py:508 | `len(x)` is the item count of a list and raises on values without a length |
| PyOps.ReplaceBy | taxifyl-staging/taxifyl-staging/app.py:1068 | `s.replace(c, t)` removes every `c` when `t` holds none, and changes nothing when `s` holds none |
| PyOps.RStripChar | taxifyl-staging/taxifyl-staging/app.py:642 | `s.rstrip(c)` keeps a prefix not ending in `c` and drops only `c` characters |
| PyOps.DropBetween | taxifyl-staging/taxifyl-staging/app.py:390 | a removed character between two pieces disappears and the pieces are cleaned independently |
| PyOps.RemoveFormatted | taxifyl-staging/taxifyl-staging/app.py:390 | removing "$" and "," from " $a,b " leaves " ab " for digit runs a and b |
| PyOps.RemoveSeparator | taxifyl-staging/taxifyl-staging/app.py:390 | the thousands separator between two digit runs is dropped and nothing else |
| PyOps.ParseAmountFormatted | taxifyl-staging/taxifyl-staging/app.py:390-392 | " $1,234 " is parsed as `float("1234")`: the currency sign, the separator and the spaces never reach `float` |
| Boxes.Codes | taxifyl-staging/taxifyl-staging/app.py:446-512 | the codes of a schema's rows, one per row, in order |
| Boxes.Values | taxifyl-staging/taxifyl-staging/app.py:446-512 | the values of a schema's rows, one per row, in order |
| Boxes.EntryReadsBack | taxifyl-staging/taxifyl-staging/app.py:598-602 | reading `entry["data"][0]` back gives the code and value the entry was built from |
| Boxes.Cells | taxifyl-staging/taxifyl-staging/app.py:446-512 | one `{"code", "label", "value"}` cell per row, in order |
| Boxes.Entries | taxifyl-staging/taxifyl-staging/app.py:446-512 | one `{"data": [cell]}` entry per row, in order |
| Boxes.EntriesCarryCodes | taxifyl-staging/taxifyl-staging/app.py:446-512 | the entries built from a schema carry its codes, in order |
| Boxes.FirstValueOfDistinct | taxifyl-staging/taxifyl-staging/app.py:598-603 | with distinct codes, every row's value is the first value found under its code |
| Boxes.FormParts | taxifyl-staging/taxifyl-staging/app.py:435-512 | a form reads back as the header and planes it was built from |
| Boxes.HeaderParts | taxifyl-staging/taxifyl-staging/app.py:436-443 | a header reads back the year it was built with |
| Boxes.PlaneOfSingle | taxifyl-staging/taxifyl-staging/app.py:446-512 | a one-field plane box reads back as its name and entries |
| PlaneRead.FindCell | taxifyl-staging/taxifyl-staging/app.py:600-602 | the cell search never raises on a list of dictionaries |
| PlaneRead.FindItemOfEntries | taxifyl-staging/taxifyl-staging/app.py:596-603 | `get_plane_value` over entries built from rows finds the value of the first row with the code, or null |
| PlaneRead.PlaneValueReadsBack | taxifyl-staging/taxifyl-staging/app.py:1044-1052 | reading a plane the transform wrote gives back the first value stored under the code |
| PlaneRead.Lookups | taxifyl-staging/taxifyl-staging/app.py:606-620 | reading several codes succeeds exactly when every read succeeds, one value per code in order |
| PlaneRead.LookupsOfValues | taxifyl-staging/taxifyl-staging/app.py:606-620 | when every code reads a known value, the readings are those values in order |
| PlaneRead.ReadBackOne | taxifyl-staging/taxifyl-staging/app.py:1044-1052 | with distinct codes, each row's value is read back under its code |
| PlaneRead.LookupsReadBack | taxifyl-staging/taxifyl-staging/app.py:1044-1052 | round trip: reading every code of a plane built from distinct codes gives back every value, in order |
| Boxes.PlaneBoxReadsBack | taxifyl-staging/taxifyl-staging/app.py:446-512 | a plane box reads back as its name and, entry by entry, the codes and values of its rows |
| Boxes.OneFormOfPlanes | taxifyl-staging/taxifyl-staging/app.py:432-512 | a document holding one form built from named schemas reads back as those plane names and their codes |
| Boxes.ThreePlanesLaid | taxifyl-staging/taxifyl-staging/app.py:432-512 | a one-form document with three planes reads back as their names and codes |
| Boxes.CellsCarryCodes | taxifyl-staging/taxifyl-staging/app.py:446-512 | the cells built from a schema carry its codes, in order |
| PlaneRead.FindItem | taxifyl-staging/taxifyl-staging/app.py:598-603 | a non-null value found is the value of a cell carrying the code in one of the items |
| PlaneRead.GetPlaneValue | taxifyl-staging/taxifyl-staging/app.py:596-603 | a plane that is not a list, dictionary or string raises; from a list, a non-null value comes from a cell carrying the code in one of its items |
| Fences.CleanJsonResponse | taxifyl-staging/taxifyl-staging/forms/form_k1/extractor.py:178-187 | `_clean_json_response` never lengthens the reply and leaves no whitespace at either end |
| Fences.EndpointCleanReply | taxifyl-staging/api.py:718-725 | the endpoint's fence removal never lengthens the reply and leaves no whitespace at either end |
| Camel.ToSnake | taxifyl-staging/api.py:177-179 | the inverse of `to_camel` holds no capital and is at most twice as long as its input |
| FormDetector.Detect | taxifyl-staging/taxifyl-staging/app.py:1281-1316 | the detected type is "UNKNOWN" exactly when no table entry comes with it, and any entry that does is a supported form of that type |
| W2Transform.AmountOf | taxifyl-staging/taxifyl-staging/app.py:383-395 | after the lookup, a number (a boolean included) passes as `float`, a string is parsed after dropping "$" and ",", an unparsable string or anything else is 0.00 |
| W2Transform.FindNumber | taxifyl-staging/taxifyl-staging/app.py:382-395 | `find_number` is 0.00 when no alias matches, and otherwise the first alias hit read as an amount |
| W2Transform.Checked | taxifyl-staging/taxifyl-staging/app.py:398-403 | after the lookup, a boolean passes unchanged, a string is true exactly when its lower-case form is one of true, yes, 1, x, checked, anything else gives the default |
| W2Transform.FindBool | taxifyl-staging/taxifyl-staging/app.py:397-403 | `find_bool` is false when no alias matches, and otherwise the first alias hit read as a checkbox |
| W2Transform.Part | taxifyl-staging/taxifyl-staging/app.py:411-419 | one half of a combined value: a string is stripped, a falsy non-string is empty |
| W2Transform.FindCombined | taxifyl-staging/taxifyl-staging/app.py:405-429 | both halves non-empty give `name + sep + address`, exactly one gives that half, neither gives the default |
| W2Transform.CombinedAbsent | taxifyl-staging/taxifyl-staging/app.py:405-429 | when neither alias list matches anything, the default comes back |
| W2Transform.BoxCodes | taxifyl-staging/taxifyl-staging/app.py:446-512 | the codes of a box table, one per box, in order |
| W2Transform.Plane | taxifyl-staging/taxifyl-staging/app.py:446-512 | the entries of one plane carry the codes of its box table, in order |
| W2Transform.PlaneLayoutReadsBack | taxifyl-staging/taxifyl-staging/app.py:446-512 | each plane box reads back as its name and entries, the supplemental one through its nested `{"boxes": [...]}` |
| W2Transform.TransformWith | taxifyl-staging/taxifyl-staging/app.py:361-367 | a reply that is an error dictionary, alone or first in a list, comes back unchanged |
| W2Transform.ErrorPassesThrough | taxifyl-staging/taxifyl-staging/app.py:361-367 | `transform_to_w2_structure` returns an error dictionary unchanged, alone or at the head of a list |
| W2Transform.ListIsUnwrapped | taxifyl-staging/taxifyl-staging/app.py:361-363 | wrapping a reply in a list changes nothing, as long as the reply is not itself a non-empty list |
| W2Transform.IdentificationCodes | taxifyl-staging/taxifyl-staging/app.py:447-455 | the identification plane carries a, b, c, d, dept, e/f |
| W2Transform.FederalCodes | taxifyl-staging/taxifyl-staging/app.py:456-470 | the federal plane carries boxes 1 to 11 |
| W2Transform.SupplementalCodes | taxifyl-staging/taxifyl-staging/app.py:471-486 | the supplemental plane carries 12a to 12d, 13, 13b, 13c, 14 |
| W2Transform.StateLocalCodes | taxifyl-staging/taxifyl-staging/app.py:487-502 | the state and local plane carries 15 to 20 and their second-state copies |
| W2Transform.AdditionalCodes | taxifyl-staging/taxifyl-staging/app.py:503-508 | the additional-data plane carries employer_use and other |
| W2Transform.DocumentReadsBack | taxifyl-staging/taxifyl-staging/app.py:432-514 | the output holds exactly one form, whose plane boxes are the ones built |
| Boxes.OneFormReadsBack | taxifyl-staging/taxifyl-staging/app.py:432-435 | `[{"forms": [form]}]` reads back as that one form |
| W2Transform.SchemaCompleteWith | taxifyl-staging/taxifyl-staging/app.py:432-514 | for any non-error reply the output holds one form whose planes, read back in order, carry the codes of the box tables |
| W2Transform.SchemaComplete | taxifyl-staging/taxifyl-staging/app.py:432-514 | schema completeness: for any non-error reply the output has one form carrying every fixed code of every plane, whatever keys the reply had |
| W2Transform.YearDefault | taxifyl-staging/taxifyl-staging/app.py:438 | the header year falls back to "2024" when no year key is present |
| W2Transform.Box1AliasReadsBox10 | taxifyl-staging/taxifyl-staging/app.py:458 | the alias `box_1` also occurs in the key `box_10`, so a Box 10 amount listed first is read as Box 1 |
| W2Transform.Transform | taxifyl-staging/taxifyl-staging/app.py:356-516 | an error dictionary, alone or first in a list, comes back unchanged; any other reply becomes exactly one form with five planes |
| Int1099Transform.SpecCodes | taxifyl-staging/taxifyl-staging/app.py:672-712 | the codes of a plane's box table, one per box, in order |
| Int1099Transform.RowsOf | taxifyl-staging/taxifyl-staging/app.py:672-712 | pairing a plane's boxes with their values keeps the codes in order and keeps distinct codes distinct |
| Int1099Transform.RenderAll | taxifyl-staging/taxifyl-staging/app.py:714-718 | one rendered form per statement, in order |
| Int1099Transform.CleanText | taxifyl-staging/taxifyl-staging/app.py:635-643 | `clean_string` output holds no line break and does not end in "*" |
| Int1099Transform.CleanTextKeepsTidy | taxifyl-staging/taxifyl-staging/app.py:635-643 | text with no line break, no surrounding space and no trailing "*" is kept as it is |
| Int1099Transform.CleanTextTwice | taxifyl-staging/taxifyl-staging/app.py:639-642 | cleaning is not idempotent: "A *" cleans to "A " and then to "A", since `strip` runs before `rstrip("*")` |
| Int1099Transform.CleanNumber | taxifyl-staging/taxifyl-staging/app.py:645-655 | the pass-through `clean_number` keeps None as None, turns numbers into floats, and gives the default for unparsable strings and other values |
| Int1099Transform.Refine | taxifyl-staging/taxifyl-staging/app.py:672-712 | each kind of box gets its cleaning: text is a string ("" for a falsy value), FATCA a boolean, a required amount a number (0.00 for None), an optional amount a number or None, a note or state a string or None (None for the echoed "15") |
| Int1099Transform.RefineSettled | taxifyl-staging/taxifyl-staging/app.py:672-712 | a value already in its cleaned form is reproduced unchanged |
| Int1099Transform.StateEchoWithSpaceKept | taxifyl-staging/taxifyl-staging/app.py:707 | the echo test compares before cleaning: "15" gives None but " 15" is kept as "15" |
| Int1099Transform.StateNamePadded | taxifyl-staging/taxifyl-staging/app.py:707 | a state name behind one space is compared before cleaning and kept cleaned |
| Int1099Transform.CleanTextDropsLeadingSpace | taxifyl-staging/taxifyl-staging/app.py:639-642 | cleaning drops one leading space in front of tidy text |
| Int1099Transform.RefineAll | taxifyl-staging/taxifyl-staging/app.py:672-712 | each value is refined by the kind of its box, one per box |
| Int1099Transform.PickPlane | taxifyl-staging/taxifyl-staging/app.py:586-592 | `if name in box: plane = box[name]` on a dictionary takes the box's plane when present and keeps the earlier one otherwise |
| Int1099Transform.FindPlanes | taxifyl-staging/taxifyl-staging/app.py:586-592 | scanning a form's boxes never raises when every box is a dictionary |
| Int1099Transform.Reread | taxifyl-staging/taxifyl-staging/app.py:595-712 | a re-read form yields a statement with one value per box of every plane |
| Int1099Transform.ProcessForm | taxifyl-staging/taxifyl-staging/app.py:578-714 | a form processed into a statement yields one with one value per box of every plane |
| Int1099Transform.EachSome | taxifyl-staging/taxifyl-staging/app.py:578-714 | the loop over forms collects at most one statement per form |
| Int1099Transform.EachSomeFrom | taxifyl-staging/taxifyl-staging/app.py:578-714 | every statement the loop collects is what the step made of some form |
| Int1099Transform.EachSomeAll | taxifyl-staging/taxifyl-staging/app.py:578-714 | when every form yields a statement, the loop yields exactly those statements in order |
| Int1099Transform.ProcessEach | taxifyl-staging/taxifyl-staging/app.py:578-714 | processing the forms yields at most one well-shaped statement per form |
| Int1099Transform.Forms | taxifyl-staging/taxifyl-staging/app.py:570-572 | the forms re-read are those of the unwrapped reply: the second `forms` lookup through the original list never finds anything the first one missed |
| Int1099Transform.PassThrough | taxifyl-staging/taxifyl-staging/app.py:574-718 | the pass-through path yields only statements with one value per box of every plane |
| Int1099Transform.FallbackNumber | taxifyl-staging/taxifyl-staging/app.py:733-745 | the fallback `find_number` gives the default when nothing matches, a float for a numeric hit, and otherwise the default or a number |
| Int1099Transform.Gather | taxifyl-staging/taxifyl-staging/app.py:753-783 | the fallback fills text boxes with strings, FATCA with a boolean, required amounts with numbers, optional amounts with a number or None, notes and states with a string or None |
| Int1099Transform.GatherAll | taxifyl-staging/taxifyl-staging/app.py:753-783 | one fallback value per box, in order |
| Int1099Transform.GatherMissing | taxifyl-staging/taxifyl-staging/app.py:753-783 | a box whose aliases all miss gets its kind's default: "", False, 0.00 or None |
| Int1099Transform.Fallback | taxifyl-staging/taxifyl-staging/app.py:720-831 | the fallback statement has one value per box of every plane |
| Int1099Transform.Extract | taxifyl-staging/taxifyl-staging/app.py:569-831 | a successful extraction yields at least one statement, each with one value per box of every plane |
| Int1099Transform.Transform | taxifyl-staging/taxifyl-staging/app.py:545-551 | an error dictionary, alone or first in a list, comes back unchanged |
| Int1099Transform.IdentificationCodes | taxifyl-staging/taxifyl-staging/app.py:676-685 | the identification plane carries Payer, Payer TIN, Payer Telephone, Recipient TIN, Recipient Name, Account No, Payer RTN, FATCA, each once |
| Int1099Transform.FinancialCodes | taxifyl-staging/taxifyl-staging/app.py:688-703 | the financial plane carries boxes 1 to 14, each once |
| Int1099Transform.FinancialEarlyDistinct | taxifyl-staging/taxifyl-staging/app.py:689-697 | boxes 1 to 9 are distinct |
| Int1099Transform.FinancialLateDistinct | taxifyl-staging/taxifyl-staging/app.py:698-702 | boxes 10 to 14 are distinct |
| Int1099Transform.DistinctSplit | taxifyl-staging/taxifyl-staging/app.py:687-703 | two runs of distinct codes that a test on the code tells apart are distinct together |
| Int1099Transform.StateCodes | taxifyl-staging/taxifyl-staging/app.py:706-710 | the state plane carries 15, 16, 17, each once |
| Int1099Transform.RenderBoxes | taxifyl-staging/taxifyl-staging/app.py:674-712 | a rendered form's plane boxes are the statement's three planes |
| Int1099Transform.RenderComplete | taxifyl-staging/taxifyl-staging/app.py:661-712 | every statement renders with the three planes in order, each with every fixed code |
| Int1099Transform.DocumentForms | taxifyl-staging/taxifyl-staging/app.py:717-718 | `[{"forms": forms}]` reads back as the rendered forms |
| Int1099Transform.OutputComplete | taxifyl-staging/taxifyl-staging/app.py:538-831 | schema completeness: whenever the transform returns on a non-error reply, it returns at least one form and every form has all three planes with every code |
| Int1099Transform.NoFormsFallsBack | taxifyl-staging/taxifyl-staging/app.py:569-721 | a reply with no forms goes to the fallback, which always returns one form |
| Int1099Transform.GatherAllMissing | taxifyl-staging/taxifyl-staging/app.py:721 | a non-dictionary reply flattens to nothing, so every box gets its default |
| Int1099Transform.NonDictionaryGivesDefaults | taxifyl-staging/taxifyl-staging/app.py:720-831 | a reply that is not a dictionary yields the all-defaults form for 2024, with 0.00 in box 17 |
| Int1099Transform.UnreadableForeignTax | taxifyl-staging/taxifyl-staging/app.py:694-770 | the two paths disagree on an unreadable Box 6 (foreign tax paid): re-reading the financial plane gives None, the fallback's `find_number(..., None)` gives 0.00 for the same text |
| Int1099Transform.RefineAllSettled | taxifyl-staging/taxifyl-staging/app.py:672-712 | values already clean are reproduced unchanged, box by box |
| Int1099Transform.FindPlanesOfRender | taxifyl-staging/taxifyl-staging/app.py:586-592 | scanning a rendered form's boxes finds its three planes |
| Int1099Transform.FindPlanesOfThree | taxifyl-staging/taxifyl-staging/app.py:586-592 | three boxes, one per plane and in order, are each found |
| Int1099Transform.RereadRendered | taxifyl-staging/taxifyl-staging/app.py:595-712 | the values of a clean statement's planes, re-read and cleaned, are that statement |
| Int1099Transform.PlanesReadBack | taxifyl-staging/taxifyl-staging/app.py:596-632 | reading every code of a rendered plane gives back its values |
| Int1099Transform.HeaderYear | taxifyl-staging/taxifyl-staging/app.py:659 | the year read from a rendered header is the statement's year |
| Int1099Transform.RereadOfParts | taxifyl-staging/taxifyl-staging/app.py:605-712 | once the planes and year are read, the statement is their refined values |
| Int1099Transform.ProcessRendered | taxifyl-staging/taxifyl-staging/app.py:578-714 | round trip: a clean statement's rendered form is re-read as that same statement |
| Int1099Transform.ProcessEachAll | taxifyl-staging/taxifyl-staging/app.py:578-714 | forms that each re-read as one statement re-read together as those statements, in order |
| Int1099Transform.ProcessEachRendered | taxifyl-staging/taxifyl-staging/app.py:578-714 | the rendered forms of clean statements are re-read as those statements |
| Int1099Transform.NormalDocumentKept | taxifyl-staging/taxifyl-staging/app.py:538-718 | transforming the transform's own clean output again changes nothing |
| Int1099Transform.DocumentFormsFound | taxifyl-staging/taxifyl-staging/app.py:569-570 | the output document is not an error report, and its forms are found where they were put |
| Int1099Transform.PassThroughRendered | taxifyl-staging/taxifyl-staging/app.py:574-718 | the pass-through path takes the rendered forms of clean statements back unchanged |
| K1Transform.SpecCodes | taxifyl-staging/taxifyl-staging/app.py:1103-1161 | the codes of a schema plane, one per box, in order |
| K1Transform.Labels | taxifyl-staging/taxifyl-staging/app.py:1103-1161 | the (code, label) pairs of a schema plane, in order |
| K1Transform.RowLabels | taxifyl-staging/taxifyl-staging/app.py:1103-1161 | the (code, label) pairs of written rows, in order |
| K1Transform.RowsOf | taxifyl-staging/taxifyl-staging/app.py:1103-1161 | pairing a schema plane with values yields rows carrying its codes and labels and exactly those values |
| K1Transform.PartnersJson | taxifyl-staging/taxifyl-staging/app.py:1094-1163 | one written record per partner, in order |
| K1Transform.CleanText | taxifyl-staging/taxifyl-staging/app.py:1057-1058 | cleaned text holds no line break and has no surrounding space; unlike the 1099-INT cleaning no "*" is dropped |
| K1Transform.CleanTextKeepsTidy | taxifyl-staging/taxifyl-staging/app.py:1057-1058 | tidy text is kept as it is |
| K1Transform.CleanTextIdempotent | taxifyl-staging/taxifyl-staging/app.py:1054-1059 | cleaning twice is cleaning once |
| K1Transform.CleanString | taxifyl-staging/taxifyl-staging/app.py:1054-1059 | None gives "", a string is tidied (and kept when already tidy), anything else is printed |
| K1Transform.CleanNumber | taxifyl-staging/taxifyl-staging/app.py:1061-1072 | None gives the default, a number its value, an unparsable string or any other value the default |
| K1Transform.ParenthesisedIsNegative | taxifyl-staging/taxifyl-staging/app.py:1068-1069 | an amount written in accounting parentheses, "(123)", is read as -123 |
| K1Transform.CleanBool | taxifyl-staging/taxifyl-staging/app.py:1074-1079 | a boolean is kept, a string is true exactly when its lower case is one of true, yes, 1, x, checked, anything else is false |
| K1Transform.CleanArray | taxifyl-staging/taxifyl-staging/app.py:1081-1086 | a list is kept, anything else (None included) becomes [] |
| K1Transform.Refine | taxifyl-staging/taxifyl-staging/app.py:1103-1161 | text boxes become tidy strings ("" for None), check boxes booleans, money boxes numbers (0.00 for None), item boxes lists |
| K1Transform.RefineSettled | taxifyl-staging/taxifyl-staging/app.py:1103-1161 | cleaning keeps an already clean value and makes any value of the right shape clean |
| K1Transform.RefineAll | taxifyl-staging/taxifyl-staging/app.py:1103-1161 | each value is cleaned by the kind of its box, one per box |
| K1Transform.PlaneValues | taxifyl-staging/taxifyl-staging/app.py:1044-1052 | a falsy plane reads None for every code; otherwise each code reads what `get_plane_value` finds |
| K1Transform.RereadPartner | taxifyl-staging/taxifyl-staging/app.py:1095-1162 | a record is re-read exactly when it is a dictionary whose three planes can be read; the partner is laid out as the schema, its name is a string, and its page is `page_reference` or its position plus one |
| K1Transform.RereadAll | taxifyl-staging/taxifyl-staging/app.py:1095-1163 | the loop yields one partner per record, each the re-read of the record at its position, and succeeds whenever every record can be re-read |
| K1Transform.RereadMeta | taxifyl-staging/taxifyl-staging/app.py:1165-1171 | the metadata is re-read exactly when it is a dictionary; name and EIN are strings, form type defaults to "Schedule K-1 (Form 1065)" and year to "2024" |
| K1Transform.PassThrough | taxifyl-staging/taxifyl-staging/app.py:1089-1173 | a structured reply yields one laid-out partner per record, with at least one partner, each with its record's page or its position plus one |
| K1Transform.SlotLabels | taxifyl-staging/taxifyl-staging/app.py:1210-1243 | the (code, label) pairs of a fallback plane, in order |
| K1Transform.FallbackNumber | taxifyl-staging/taxifyl-staging/app.py:1187-1198 | the fallback `find_number` gives 0.00 when nothing matches and otherwise the first usable hit, cleaned as a number |
| K1Transform.FillAll | taxifyl-staging/taxifyl-staging/app.py:1210-1243 | one fallback row per slot, with the slot's code and label and its filled value |
| K1Transform.FallbackPartner | taxifyl-staging/taxifyl-staging/app.py:1207-1244 | the fallback partner is on page 1 and carries the fallback's codes and labels in every plane |
| K1Transform.Extract | taxifyl-staging/taxifyl-staging/app.py:1088-1245 | an unstructured reply goes to the fallback; every result has a partner; a structured reply's partners are laid out as the full schema |
| K1Transform.TransformWith | taxifyl-staging/taxifyl-staging/app.py:1034-1245 | an error dictionary, alone or first in a list, comes back unchanged; a reply without partner records or structured planes always yields a document; any document produced has at least one partner |
| K1Transform.PartICodes | taxifyl-staging/taxifyl-staging/app.py:1103-1108 | Part I carries A, B, C, D, each once |
| K1Transform.PartIICodes | taxifyl-staging/taxifyl-staging/app.py:1109-1130 | Part II carries E to N_End in the program's order |
| K1Transform.PartIIICodes | taxifyl-staging/taxifyl-staging/app.py:1131-1161 | Part III carries boxes 1 to 23 in the program's order |
| K1Transform.CodesDistinct | taxifyl-staging/taxifyl-staging/app.py:1103-1161 | codes that do not repeat as strings do not repeat as boxes |
| K1Transform.DistinctSplit | taxifyl-staging/taxifyl-staging/app.py:1109-1161 | two runs of distinct codes that a test tells apart are distinct together |
| K1Transform.PartIIDistinct | taxifyl-staging/taxifyl-staging/app.py:1109-1130 | no code of Part II repeats |
| K1Transform.PartIIEarlyDistinct | taxifyl-staging/taxifyl-staging/app.py:1110-1120 | the Part II codes before "L" are distinct |
| K1Transform.PartIILateDistinct | taxifyl-staging/taxifyl-staging/app.py:1121-1129 | the Part II codes from "L" on are distinct |
| K1Transform.PartIIIDistinct | taxifyl-staging/taxifyl-staging/app.py:1131-1161 | no code of Part III repeats |
| K1Transform.PartIIIEarlyDistinct | taxifyl-staging/taxifyl-staging/app.py:1132-1146 | boxes 1 to 9c are distinct |
| K1Transform.PartIIILateDistinct | taxifyl-staging/taxifyl-staging/app.py:1147-1160 | boxes 10 to 23 are distinct |
| K1Transform.EmbedsInTwo | taxifyl-staging/taxifyl-staging/app.py:1210-1243 | an embedding of fallback boxes into the schema can be checked in two runs |
| K1Transform.FallbackLabelsAgree | taxifyl-staging/taxifyl-staging/app.py:1210-1243 | the fallback's boxes are boxes of the full schema, in the same order and with the same codes and labels: all of Part I, thirteen of Part II, eleven of Part III |
| K1Transform.FallbackPartIEmbeds | taxifyl-staging/taxifyl-staging/app.py:1210-1215 | the fallback's Part I is the schema's Part I |
| K1Transform.FallbackPartIIEmbeds | taxifyl-staging/taxifyl-staging/app.py:1216-1230 | the fallback's Part II boxes appear in the schema's Part II in order |
| K1Transform.FallbackPartIIHead | taxifyl-staging/taxifyl-staging/app.py:1217-1223 | the first seven fallback Part II boxes match their schema boxes |
| K1Transform.FallbackPartIITail | taxifyl-staging/taxifyl-staging/app.py:1224-1229 | the last six fallback Part II boxes match their schema boxes |
| K1Transform.FallbackPartIIIEmbeds | taxifyl-staging/taxifyl-staging/app.py:1231-1243 | the fallback's Part III boxes appear in the schema's Part III in order |
| K1Transform.FallbackPartIIIHead | taxifyl-staging/taxifyl-staging/app.py:1232-1237 | the first six fallback Part III boxes match their schema boxes |
| K1Transform.FallbackPartIIITail | taxifyl-staging/taxifyl-staging/app.py:1238-1242 | the last five fallback Part III boxes match their schema boxes |
| K1Transform.DefaultRows | taxifyl-staging/taxifyl-staging/app.py:1210-1243 | one default row per fallback slot |
| K1Transform.FillAllEmpty | taxifyl-staging/taxifyl-staging/app.py:1176 | with nothing flattened every fallback box holds its default |
| K1Transform.NonDictionaryDefaults | taxifyl-staging/taxifyl-staging/app.py:1176-1245 | a reply that is not a dictionary yields the default metadata and the all-defaults partner |
| K1Transform.NonDictionaryGivesDefaults | taxifyl-staging/taxifyl-staging/app.py:1176-1245 | the same with the program's own tables |
| K1Transform.FullSchemaReadable | taxifyl-staging/taxifyl-staging/app.py:1103-1161 | every plane of the full schema is non-empty and repeats no code |
| K1Transform.RowsOfLaid | taxifyl-staging/taxifyl-staging/app.py:1103-1161 | rows laid out as a plane are that plane's rows with their own values |
| K1Transform.RefineAllSettled | taxifyl-staging/taxifyl-staging/app.py:1103-1161 | clean values are reproduced unchanged, box by box |
| K1Transform.PlaneRereads | taxifyl-staging/taxifyl-staging/app.py:1044-1052 | round trip: a written plane of clean values is read back and cleaned into the same rows |
| K1Transform.PartnerFields | taxifyl-staging/taxifyl-staging/app.py:1100-1162 | a written record holds its name, page and three planes under their own keys |
| K1Transform.PartnerRereads | taxifyl-staging/taxifyl-staging/app.py:1095-1162 | round trip: a clean partner's record is re-read as that partner, at any position |
| K1Transform.AllRereads | taxifyl-staging/taxifyl-staging/app.py:1095-1163 | round trip: clean partners' records are re-read as those partners |
| K1Transform.RereadEach | taxifyl-staging/taxifyl-staging/app.py:1095-1163 | when every record is re-read, the loop yields those partners in order |
| K1Transform.MetaRereads | taxifyl-staging/taxifyl-staging/app.py:1165-1171 | round trip: clean metadata is re-read as itself |
| K1Transform.DocumentFields | taxifyl-staging/taxifyl-staging/app.py:1089-1090 | the written document is no error report and holds the metadata and records where they were put |
| K1Transform.PassThroughOfDocument | taxifyl-staging/taxifyl-staging/app.py:1088-1173 | a written document with partners takes the pass-through path |
| K1Transform.NormalDocumentKeptIn | taxifyl-staging/taxifyl-staging/app.py:1029-1173 | transforming the pass-through output again changes nothing when its values are clean |
| K1Transform.NormalDocumentKept | taxifyl-staging/taxifyl-staging/app.py:1029-1173 | the same with the program's own tables |
| K1Transform.PlaneValuesOfEntries | taxifyl-staging/taxifyl-staging/app.py:1044-1052 | a plane the transform wrote can always be read |
| K1Transform.PartnerRereadable | taxifyl-staging/taxifyl-staging/app.py:1095-1162 | any record the transform wrote is re-read without error |
| K1Transform.SingleReread | taxifyl-staging/taxifyl-staging/app.py:1095-1163 | a single record is re-read as a single partner |
| K1Transform.SinglePartnerReread | taxifyl-staging/taxifyl-staging/app.py:1095-1163 | a one-partner document's record is re-read as one partner laid out as the schema |
| K1Transform.FirstPartIII | taxifyl-staging/taxifyl-staging/app.py:1131 | where the first partner's Part III sits in a written document |
| K1Transform.RereadSingle | taxifyl-staging/taxifyl-staging/app.py:1088-1173 | a one-partner document is transformed into a one-partner document laid out as the full schema |
| K1Transform.FallbackWidens | taxifyl-staging/taxifyl-staging/app.py:1175-1245 | the fallback's output is not a fixed point when its Part III is narrower than the full schema's |
| K1Transform.FallbackOutputWidens | taxifyl-staging/taxifyl-staging/app.py:1231-1243 | transformed again, the fallback's output is re-read with all twenty-nine Part III boxes instead of eleven, so it changes |
| K1Transform.Transform | taxifyl-staging/taxifyl-staging/app.py:1029-1245 | with the program's tables: an error dictionary comes back unchanged, an unstructured reply always yields a document, and any document has at least one partner |
| K1Transform.Fallback | taxifyl-staging/taxifyl-staging/app.py:1175-1245 | the fallback document has the K-1 form type, year "2024" when no year key is found, one partner on page 1, and its three parts carry exactly the labels of the fallback tables |
| OcrFallback.FirstYearFrom | taxifyl-staging/taxifyl-staging/forms/w2/extractor.py:258-261 | the position found holds a year-shaped match (20 followed by 1 or 2 and a digit) and no earlier position from the start does |
| OcrFallback.ExtractYear | taxifyl-staging/taxifyl-staging/forms/w2/extractor.py:258-261 | the year is four characters: the leftmost year-shaped match, or "2024" when the text has none |
| OcrFallback.YearAfterYearFreePrefix | taxifyl-staging/taxifyl-staging/forms/w2/extractor.py:258-261 | a year preceded only by year-free text is the one reported, whatever follows it |
| OcrFallback.ParseUnsigned | taxifyl-staging/taxifyl-staging/forms/w2/extractor.py:280 | `float` of unsigned digits with at most one point reads a non-negative number, and only from text holding a digit |
| OcrFallback.ParseDecimal | taxifyl-staging/taxifyl-staging/forms/w2/extractor.py:280 | `float` reads only text holding a digit, and text without a leading minus as non-negative |
| OcrFallback.ParseNatString | taxifyl-staging/taxifyl-staging/forms/w2/extractor.py:280 | whole numbers written in decimal read back as themselves, with or without a minus sign |
| OcrFallback.ParseDollarsAndFraction | taxifyl-staging/taxifyl-staging/forms/w2/extractor.py:280 | "d.f" reads back as d plus the fraction f |
| OcrFallback.UnsignedDecimal | taxifyl-staging/taxifyl-staging/forms/w2/extractor.py:280 | text starting with a digit is read without a sign |
| OcrFallback.WholePointValue | taxifyl-staging/taxifyl-staging/forms/w2/extractor.py:280 | the value of "w.f" is w's value plus the fraction |
| OcrFallback.ParseUnsignedPoint | taxifyl-staging/taxifyl-staging/forms/w2/extractor.py:280 | digits, a point and digits read as the whole part plus the fraction |
| OcrFallback.PointAfterDigits | taxifyl-staging/taxifyl-staging/forms/w2/extractor.py:280 | in digits followed by a point, the first point is right after the digits |
| OcrFallback.FirstReading | taxifyl-staging/taxifyl-staging/forms/w2/extractor.py:274-283 | the first successful reading wins, 0.00 when none succeeds |
| OcrFallback.ExtractBoxValue | taxifyl-staging/taxifyl-staging/forms/w2/extractor.py:273-283 | the patterns are tried in order; the first whose capture reads as a number gives the value, and 0.00 when none does |
| OcrFallback.Readings | taxifyl-staging/forms/form_1099int/extractor.py:279-286 | one reading per pattern, in pattern order |
| OcrFallback.K1ReadingsAsWritten | taxifyl-staging/taxifyl-staging/forms/form_k1/extractor.py:283-291 | one as-written reading per pattern, in pattern order |
| OcrFallback.K1Readings | taxifyl-staging/taxifyl-staging/forms/form_k1/extractor.py:283-291 | one corrected reading per pattern, in pattern order |
| OcrFallback.K1BoxValueAsWritten | taxifyl-staging/taxifyl-staging/forms/form_k1/extractor.py:281-292 | as written, the first pattern whose capture group reads as a number gives the value, and 0.00 when none does |
| OcrFallback.K1BoxValue | taxifyl-staging/taxifyl-staging/forms/form_k1/extractor.py:281-292 | corrected, the first pattern whose match, parentheses included, reads as a number gives the value, and 0.00 when none does |
| OcrFallback.K1CleanDigits | taxifyl-staging/taxifyl-staging/forms/form_k1/extractor.py:287 | cleaning leaves bare digits alone |
| OcrFallback.CleanStepKeepsParenthesised | taxifyl-staging/taxifyl-staging/forms/form_k1/extractor.py:287 | dropping "$" and "," keeps "(digits)" |
| OcrFallback.ReplaceStepOpensMinus | taxifyl-staging/taxifyl-staging/forms/form_k1/extractor.py:287 | replacing "(" by "-" turns "(digits)" into "-digits)" |
| OcrFallback.RemoveStepDropsClose | taxifyl-staging/taxifyl-staging/forms/form_k1/extractor.py:287 | dropping ")" turns "-digits)" into "-digits" |
| OcrFallback.K1CleanParenthesised | taxifyl-staging/taxifyl-staging/forms/form_k1/extractor.py:287 | the cleaning turns "(digits)" into "-digits" |
| OcrFallback.K1ParenthesisedLoss | taxifyl-staging/taxifyl-staging/forms/form_k1/extractor.py:285-289 | a loss printed "(n)" reads as +n as written and as -n once corrected |
| OcrFallback.FirstListed | taxifyl-staging/taxifyl-staging/forms/form_k1/extractor.py:272-279 | the first listed keyword found in the text gives the answer, the default when none is found, and the answer is always a listed one or the default |
| OcrFallback.EntityTypeListed | taxifyl-staging/taxifyl-staging/forms/form_k1/extractor.py:272-279 | the entity type is always one of INDIVIDUAL, CORPORATION, ESTATE, TRUST, PARTNERSHIP, LLC |
| OcrFallback.CopyTypePriority | taxifyl-staging/taxifyl-staging/forms/form_8805/extractor.py:327-338 | a page naming Copy A is Copy A; a page naming none of Copy A, C or D is Copy B |
| OcrFallback.CopyMarkerGivesCopyType | taxifyl-staging/taxifyl-staging/forms/form_8805/extractor.py:327-338 | a page with the "Copy C" marker that names neither Copy A nor Copy B in any case is labelled Copy C |
| OcrFallback.W2FallbackComplete | taxifyl-staging/taxifyl-staging/forms/w2/extractor.py:196-256 | the W-2 OCR form carries every code of the W-2 schema whatever the page said, and boxes 3 to 11 are 0.00 |
| OcrFallback.Int1099IdentificationComplete | taxifyl-staging/forms/form_1099int/extractor.py:189-243 | the 1099-INT OCR identification plane carries Payer, Payer TIN, Recipient TIN, Recipient Name, Account No, Payer RTN |
| OcrFallback.Int1099AmountsComplete | taxifyl-staging/forms/form_1099int/extractor.py:189-243 | the 1099-INT OCR financial plane carries boxes 1 to 6 and 8 to 11, whatever amounts were read |
| OcrFallback.Int1099StateComplete | taxifyl-staging/forms/form_1099int/extractor.py:189-243 | the 1099-INT OCR state plane carries 15, 16, 17, with 0.00 in box 17 |
| OcrFallback.K1IdentificationComplete | taxifyl-staging/taxifyl-staging/forms/form_k1/extractor.py:189-246 | the K-1 OCR identification plane carries E, F, I1, A, B |
| OcrFallback.K1FederalComplete | taxifyl-staging/taxifyl-staging/forms/form_k1/extractor.py:189-246 | the K-1 OCR federal plane carries boxes 1 to 13 as the program lists them, then L_Current |
| OcrFallback.Form8804FallbackComplete | taxifyl-staging/taxifyl-staging/forms/form_8804/extractor.py:258-310 | the 8804 OCR form has Parts I, II, III in order with their fixed codes, every value "" or 0.00, whatever the page said |
| OcrFallback.PartnerTypeListed | taxifyl-staging/taxifyl-staging/forms/form_8805/extractor.py:312-325 | the 8805 partner type is "" exactly when the page names none of INDIVIDUAL, CORPORATION, PARTNERSHIP, TRUST, ESTATE in any case; otherwise it is one of them, and a page naming INDIVIDUAL is an individual's |
| OcrFallback.FirstListedHit | taxifyl-staging/taxifyl-staging/forms/form_8805/extractor.py:312-325 | a keyword found at some entry means the answer comes from that entry or an earlier one |
| OcrFallback.Form8805FallbackComplete | taxifyl-staging/taxifyl-staging/forms/form_8805/extractor.py:261-290 | the 8805 OCR form lists fields 1a to 13 in order whatever the page says; 1a and 3 carry the found partner name and partner type, and 6 to 13 are empty, unchecked or zero |
| OcrFallback.K1ReadingAsWritten | taxifyl-staging/taxifyl-staging/forms/form_k1/extractor.py:283-290 | as written, an amount printed with no minus sign reads as non-negative, parentheses or not |
| OcrFallback.K1Reading | taxifyl-staging/taxifyl-staging/forms/form_k1/extractor.py:283-290 | corrected, an amount printed without parentheses reads exactly as it did as written |
| OcrFallback.ExtractEntityType | taxifyl-staging/taxifyl-staging/forms/form_k1/extractor.py:272-279 | the entity type is INDIVIDUAL or a type the upper-cased page names |
| OcrFallback.ExtractPartnerType | taxifyl-staging/taxifyl-staging/forms/form_8805/extractor.py:312-325 | the partner type is empty or a type the upper-cased page names |
| OcrFallback.ExtractCopyType | taxifyl-staging/taxifyl-staging/forms/form_8805/extractor.py:327-338 | Copy A, C or D is reported only for a page that names that copy in some capitalisation |
| OcrFallback.W2DocumentLaid | taxifyl-staging/taxifyl-staging/forms/w2/extractor.py:196-256 | the W-2 OCR document built from identification and federal rows with the schema's codes carries every W-2 plane with every code |
| OcrFallback.W2Fallback | taxifyl-staging/taxifyl-staging/forms/w2/extractor.py:196-256 | `_parse_w2_text` yields one form carrying every plane and every code of the W-2 OCR layout, whatever the page said |
| OcrFallback.W2FixedPlanesComplete | taxifyl-staging/taxifyl-staging/forms/w2/extractor.py:233-253 | the supplemental and state planes, never read from the page, carry exactly their schema codes |
| OcrFallback.Int1099Laid | taxifyl-staging/forms/form_1099int/extractor.py:189-243 | the 1099-INT OCR document built from identification rows with the schema's codes carries every 1099-INT plane with every code |
| OcrFallback.Int1099Fallback | taxifyl-staging/forms/form_1099int/extractor.py:189-243 | `_parse_1099int_text` yields a one-element list holding one form with every 1099-INT plane and code, whatever the page said |
| OcrFallback.K1Laid | taxifyl-staging/taxifyl-staging/forms/form_k1/extractor.py:189-246 | the K-1 OCR document built from identification rows with the schema's codes carries every K-1 plane with every code, however amounts are read |
| OcrFallback.K1FallbackWith | taxifyl-staging/taxifyl-staging/forms/form_k1/extractor.py:189-246 | `_parse_k1_text` yields one form carrying every K-1 plane and code, whatever the page said and however amounts are read |
| OcrFallback.K1Fallback | taxifyl-staging/taxifyl-staging/forms/form_k1/extractor.py:189-292 | as written (parenthesised amounts lose their sign), the K-1 OCR form still carries every plane and code |
| OcrFallback.K1FallbackCorrected | taxifyl-staging/taxifyl-staging/forms/form_k1/extractor.py:189-292 | with parenthesised amounts read as losses, the K-1 OCR form carries every plane and code |
| OcrFallback.K1InternationalComplete | taxifyl-staging/taxifyl-staging/forms/form_k1/extractor.py:236-243 | the international plane carries its two codes, each with an empty value |
| OcrFallback.PartsReadBack | taxifyl-staging/taxifyl-staging/forms/form_8804/extractor.py:258-310 | each part built from the 8804 table reads back as that part's number and, cell by cell, its codes |
| OcrFallback.Form8804Fallback | taxifyl-staging/taxifyl-staging/forms/form_8804/extractor.py:258-310 | `_parse_8804_text` yields as many parts as the schema, each reading back as its part number and codes, whatever the page says |
| OcrFallback.Form8805DocumentReadsBack | taxifyl-staging/taxifyl-staging/forms/form_8805/extractor.py:261-290 | the 8805 document reads back the copy type and the field cells it was built from |
| OcrFallback.Form8805Fallback | taxifyl-staging/taxifyl-staging/forms/form_8805/extractor.py:261-290 | `_parse_8805_text` reports the copy type found on the page and fields whose cells carry the schema's codes in order |
| K3Merge.Canon | taxifyl-staging/taxifyl-staging/forms/form_k3/extractor.py:557-562 | codes as a Python set sees them: booleans become the integers 1 and 0, and nothing else changes |
| K3Merge.BlankValues | taxifyl-staging/taxifyl-staging/forms/form_k3/extractor.py:575 | None, 0, 0.00, "" and False count as empty; True, 1, "0" and [] do not |
| K3Merge.ItemCells | taxifyl-staging/taxifyl-staging/forms/form_k3/extractor.py:555-556 | an item with a "data" list yields its cells, an item without "data" none, and `in` on None, a boolean or a number raises |
| K3Merge.CellCodes | taxifyl-staging/taxifyl-staging/forms/form_k3/extractor.py:553-557 | collecting the codes succeeds exactly when every cell is a dictionary whose code can be hashed, and then holds every cell's code |
| K3Merge.FillCells | taxifyl-staging/taxifyl-staging/forms/form_k3/extractor.py:573-576 | the fill keeps the number of cells |
| K3Merge.FillCellsRaises | taxifyl-staging/taxifyl-staging/forms/form_k3/extractor.py:573-576 | the fill raises exactly when some cell is not a dictionary |
| K3Merge.FillCellsEffect | taxifyl-staging/taxifyl-staging/forms/form_k3/extractor.py:573-576 | every cell stays as it was or is a dictionary that took the fill, and when nothing raised every cell took it |
| K3Merge.FillCellsAt | taxifyl-staging/taxifyl-staging/forms/form_k3/extractor.py:573-576 | what the fill leaves at one position |
| K3Merge.FillItem | taxifyl-staging/taxifyl-staging/forms/form_k3/extractor.py:571-576 | an item whose cells cannot be read raises unchanged; an item without "data" is left unchanged |
| K3Merge.FillItems | taxifyl-staging/taxifyl-staging/forms/form_k3/extractor.py:571-577 | the fill keeps the number of merged items |
| K3Merge.MergeCells | taxifyl-staging/taxifyl-staging/forms/form_k3/extractor.py:561-577 | one new item's cells: the codes only grow, the item is appended whole or the list keeps its length, and a new code always means the item was appended |
| K3Merge.MergeItem | taxifyl-staging/taxifyl-staging/forms/form_k3/extractor.py:559-577 | merging one new item never loses a code |
| K3Merge.MergeItems | taxifyl-staging/taxifyl-staging/forms/form_k3/extractor.py:559-577 | merging a part's new items never loses a code |
| K3Merge.MergePart | taxifyl-staging/taxifyl-staging/forms/form_k3/extractor.py:549-577 | an empty part changes nothing; a part whose merged codes cannot be read keeps the merged items |
| K3Merge.Refill | taxifyl-staging/taxifyl-staging/forms/form_k3/extractor.py:569-576 | a non-empty value stays; an empty one takes the newcomer |
| K3Merge.FillRows | taxifyl-staging/taxifyl-staging/forms/form_k3/extractor.py:571-576 | filling keeps codes and labels and changes only empty values of the filled code |
| K3Merge.CodeSet | taxifyl-staging/taxifyl-staging/forms/form_k3/extractor.py:553-557 | the set of codes of well-formed rows, as strings |
| K3Merge.CodeSetOfCodes | taxifyl-staging/taxifyl-staging/forms/form_k3/extractor.py:553-557 | rows with the same codes have the same code set |
| K3Merge.CodeSetAppend | taxifyl-staging/taxifyl-staging/forms/form_k3/extractor.py:563-564 | appending a row adds its code to the set |
| K3Merge.CodesOfEntries | taxifyl-staging/taxifyl-staging/forms/form_k3/extractor.py:553-557 | collecting codes from well-formed entries succeeds with their code set |
| K3Merge.FillItemsOfEntries | taxifyl-staging/taxifyl-staging/forms/form_k3/extractor.py:571-576 | the raw fill of well-formed entries is the typed fill of their rows and never raises |
| K3Merge.MergeItemOfEntry | taxifyl-staging/taxifyl-staging/forms/form_k3/extractor.py:559-577 | the raw merge of one well-formed entry is the typed absorption of its row |
| K3Merge.MergeItemsOfEntries | taxifyl-staging/taxifyl-staging/forms/form_k3/extractor.py:559-577 | the raw merge of well-formed entries is the typed merge of their rows and never raises |
| K3Merge.MergePartOfEntries | taxifyl-staging/taxifyl-staging/forms/form_k3/extractor.py:549-577 | on well-formed replies the raw merge of a part is the typed merge of its rows, and never raises |
| K3Merge.MergePartOfPool | taxifyl-staging/taxifyl-staging/forms/form_k3/extractor.py:549-564 | a truthy part over items whose codes can be read merges every new item against those codes |
| K3Merge.ValuesOf | taxifyl-staging/taxifyl-staging/forms/form_k3/extractor.py:574 | the values of the rows with a code, never more than the rows |
| K3Merge.ValuesOfPresent | taxifyl-staging/taxifyl-staging/forms/form_k3/extractor.py:574 | a code has values exactly when some row carries it |
| K3Merge.FirstFilled | taxifyl-staging/taxifyl-staging/forms/form_k3/extractor.py:569 | none exactly when every value is empty; otherwise a non-empty value of the list |
| K3Merge.WinnerIsFirstFilled | taxifyl-staging/taxifyl-staging/forms/form_k3/extractor.py:559-577 | the winner is the first non-empty value, or the first value when all are empty |
| K3Merge.ValuesOfFill | taxifyl-staging/taxifyl-staging/forms/form_k3/extractor.py:571-576 | filling refills the filled code's values and leaves other codes' values alone |
| K3Merge.DistinctValuesOf | taxifyl-staging/taxifyl-staging/forms/form_k3/extractor.py:562-565 | rows with distinct codes hold at most one value per code |
| K3Merge.AbsorbDistinct | taxifyl-staging/taxifyl-staging/forms/form_k3/extractor.py:562-565 | absorbing a row keeps codes distinct and appends the code only when it is new |
| K3Merge.AbsorbValues | taxifyl-staging/taxifyl-staging/forms/form_k3/extractor.py:559-577 | absorbing a row leaves other codes alone, adds a new code's value, and refills a known code's empty value |
| K3Merge.MergeRowsCodes | taxifyl-staging/taxifyl-staging/forms/form_k3/extractor.py:559-577 | the merge keeps codes distinct and holds exactly the old and new codes, never dropping one |
| K3Merge.MergeRowsValue | taxifyl-staging/taxifyl-staging/forms/form_k3/extractor.py:548-577 | first non-empty value wins: each code ends with exactly one row, holding the first non-empty value it had, earlier rows first, or its first value when all are empty |
| K3Merge.AbsorbWinner | taxifyl-staging/taxifyl-staging/forms/form_k3/extractor.py:559-577 | absorbing one row keeps a code's winner, whatever comes later |
| K3Merge.MergeRowsConcat | taxifyl-staging/taxifyl-staging/forms/form_k3/extractor.py:500-577 | merging page after page is merging all their rows in page order |
| K3Batch.PartKeysDistinct | taxifyl-staging/taxifyl-staging/forms/form_k3/extractor.py:481-495 | there are thirteen part keys and none repeats |
| K3Batch.PartKeysReserved | taxifyl-staging/taxifyl-staging/forms/form_k3/extractor.py:481-495 | no part key is one of the other keys a page reply is read for |
| K3Batch.PartKeysUnderscore | taxifyl-staging/taxifyl-staging/forms/form_k3/extractor.py:481-495 | every part key starts with "part_" |
| K3Batch.NotPartKey | taxifyl-staging/taxifyl-staging/forms/form_k3/extractor.py:481-495 | a key without "_" in fifth place is not a part key |
| K3Batch.K3Start | taxifyl-staging/taxifyl-staging/forms/form_k3/extractor.py:477-498 | the loop starts with thirteen empty parts |
| K3Batch.FirstRecord | taxifyl-staging/taxifyl-staging/forms/form_k3/extractor.py:536-537 | a reply without "partner_records" has no first record; a non-empty list gives its first element |
| K3Batch.NameStep | taxifyl-staging/taxifyl-staging/forms/form_k3/extractor.py:535-539 | a non-empty partner name is kept |
| K3Batch.MergeParts | taxifyl-staging/taxifyl-staging/forms/form_k3/extractor.py:548-577 | merging the parts from one on leaves the earlier parts alone and keeps thirteen |
| K3Batch.K3Step | taxifyl-staging/taxifyl-staging/forms/form_k3/extractor.py:500-581 | a page keeps thirteen parts; a reply that is unreadable or an error changes nothing |
| K3Batch.K3Run | taxifyl-staging/taxifyl-staging/forms/form_k3/extractor.py:500-581 | the loop keeps thirteen parts |
| K3Batch.PartFields | taxifyl-staging/taxifyl-staging/forms/form_k3/extractor.py:596 | the parts sit under the thirteen part keys in order |
| K3Batch.K3StepMeta | taxifyl-staging/taxifyl-staging/forms/form_k3/extractor.py:522-532 | a page offers metadata only while none was found |
| K3Batch.K3RunMeta | taxifyl-staging/taxifyl-staging/forms/form_k3/extractor.py:522-532 | the metadata is the first any page offers |
| K3Batch.K3RunKeepsName | taxifyl-staging/taxifyl-staging/forms/form_k3/extractor.py:535-539 | a non-empty partner name, once found, is never replaced |
| K3Batch.PartFieldsLookup | taxifyl-staging/taxifyl-staging/forms/form_k3/extractor.py:596 | each part is found under its key |
| K3Batch.PartnerRecordHead | taxifyl-staging/taxifyl-staging/forms/form_k3/extractor.py:593-595 | the record carries the name found, or "Partner (Pages first-last)", never an empty name, and the page span |
| K3Batch.PartnerRecordPart | taxifyl-staging/taxifyl-staging/forms/form_k3/extractor.py:593-597 | the record carries every part's gathered items under the part's key |
| K3Batch.EntryParts | taxifyl-staging/taxifyl-staging/forms/form_k3/extractor.py:481-495 | the entries of each part, part by part |
| K3Batch.MergedParts | taxifyl-staging/taxifyl-staging/forms/form_k3/extractor.py:548-577 | each part merged with the page's rows for that part |
| K3Batch.MergePartsOfEntries | taxifyl-staging/taxifyl-staging/forms/form_k3/extractor.py:548-577 | on a page of well-formed parts, the raw merge of the parts is the typed merge, part by part, and never raises |
| K3Batch.StepOfPartsReply | taxifyl-staging/taxifyl-staging/forms/form_k3/extractor.py:500-581 | a page of well-formed parts merges each part the typed way and changes nothing else |
| K3Batch.MergedAll | taxifyl-staging/taxifyl-staging/forms/form_k3/extractor.py:500-581 | each part merged page after page keeps thirteen parts |
| K3Batch.MergedAllIsOneMerge | taxifyl-staging/taxifyl-staging/forms/form_k3/extractor.py:500-581 | merging page after page is merging each part's rows of all pages at once |
| K3Batch.RunOfPartsReplies | taxifyl-staging/taxifyl-staging/forms/form_k3/extractor.py:500-581 | pages of well-formed parts: the loop is the typed merge, page after page |
| K3Batch.BatchKeepsFirstFilled | taxifyl-staging/taxifyl-staging/forms/form_k3/extractor.py:463-606 | across a page range, every code of every part ends with exactly one box, holding the first non-empty value the pages gave it, or its first value when all were empty |
| K3Batch.K3BatchExtract | taxifyl-staging/taxifyl-staging/forms/form_k3/extractor.py:463-606 | the batch output is one dictionary carrying the first metadata any page offers or the default K-3 metadata, the page numbers, and exactly one partner record whose name is non-empty and whose page reference is the page span |
| Batch.PageNumbers | taxifyl-staging/taxifyl-staging/forms/form_k3/extractor.py:603 | one page number per page, in order |
| Batch.NoDashInNumber | taxifyl-staging/taxifyl-staging/forms/form_k3/extractor.py:595 | no page number written in decimal holds a "-" |
| Batch.SpanParts | taxifyl-staging/taxifyl-staging/forms/form_k3/extractor.py:595 | splitting a page span "first-last" at "-" gives back the first and the last page |
| Batch.SplitTwo | taxifyl-staging/taxifyl-staging/forms/form_k3/extractor.py:595 | two texts without the separator, joined by it, split back into the two |
| Batch.SplitWithout | taxifyl-staging/taxifyl-staging/forms/form_k3/extractor.py:595 | a text without the separator splits into itself |
| Batch.PageData | taxifyl-staging/taxifyl-staging/forms/form_k1/extractor.py:449-466 | an error reply gives no data; a dictionary without "error" is the data; otherwise the data is the first element of a non-empty list, never None |
| Batch.OfferedMeta | taxifyl-staging/taxifyl-staging/forms/form_k1/extractor.py:469-480 | a dictionary never raises; its "document_metadata" is offered (None offers nothing); with neither that key nor "partnership_name" nor "tax_year" nothing is offered |
| Batch.MetaStep | taxifyl-staging/taxifyl-staging/forms/form_k1/extractor.py:469 | metadata once found is kept |
| Batch.FirstOffer | taxifyl-staging/taxifyl-staging/forms/form_k1/extractor.py:469-480 | the metadata found is one some page offers, and none is found exactly when no page offers any |
| Batch.PageRecords | taxifyl-staging/taxifyl-staging/forms/form_k1/extractor.py:483-491 | a "partner_records" list gives its records; a dictionary without one is one record when it carries a Part I, II or III plane at top level, else none |
| Batch.Tagged | taxifyl-staging/taxifyl-staging/forms/form_k1/extractor.py:494-496 | tagging keeps every record of dictionaries and tags each with its page |
| Batch.TaggedPage | taxifyl-staging/taxifyl-staging/forms/form_k1/extractor.py:495 | every tagged record reads back its page |
| Batch.K1Step | taxifyl-staging/taxifyl-staging/forms/form_k1/extractor.py:439-502 | a page without usable data changes nothing |
| Batch.K1StepRecords | taxifyl-staging/taxifyl-staging/forms/form_k1/extractor.py:494-496 | one page appends its records after those gathered before |
| Batch.K1StepMeta | taxifyl-staging/taxifyl-staging/forms/form_k1/extractor.py:469 | one page supplies metadata only when none was found |
| Batch.K1RunSpec | taxifyl-staging/taxifyl-staging/forms/form_k1/extractor.py:439-502 | the metadata is the first any page offers, and the records are the pages' contributions in page order |
| Batch.K1RunMeta | taxifyl-staging/taxifyl-staging/forms/form_k1/extractor.py:469-480 | the metadata is the first any page offers |
| Batch.FirstOfferCons | taxifyl-staging/taxifyl-staging/forms/form_k1/extractor.py:469-480 | the first offer of pages is the first page's offer, else the rest's |
| Batch.K1RunRecords | taxifyl-staging/taxifyl-staging/forms/form_k1/extractor.py:483-496 | the records are the pages' contributions in page order |
| Batch.GatherCons | taxifyl-staging/taxifyl-staging/forms/form_k1/extractor.py:439-496 | the records of pages are the first page's, then the rest's |
| Batch.K1RecordsPage | taxifyl-staging/taxifyl-staging/forms/form_k1/extractor.py:495 | every record a page adds carries that page's number |
| Batch.GatherOrdered | taxifyl-staging/taxifyl-staging/forms/form_k1/extractor.py:439-496 | pages in ascending order give records whose page references never go down |
| Batch.AllFromLower | taxifyl-staging/taxifyl-staging/forms/form_k1/extractor.py:495 | page references at least some page are at least any lower one |
| Batch.AscendConcat | taxifyl-staging/taxifyl-staging/forms/form_k1/extractor.py:494-496 | one page's records followed by later pages' records keep ascending |
| Batch.K1RecordsStampPage | taxifyl-staging/taxifyl-staging/forms/form_k1/extractor.py:495 | every page stamps its own number on its records |
| Batch.ContributionsOrdered | taxifyl-staging/taxifyl-staging/forms/form_k1/extractor.py:439-496 | K-1 records come out in page order when the pages are given in ascending order |
| Batch.TopLevelPlaneWrapped | taxifyl-staging/taxifyl-staging/forms/form_k1/extractor.py:488-491 | a reply without "partner_records" that carries a plane at top level is one record, tagged with its page |
| Batch.K1BatchExtract | taxifyl-staging/taxifyl-staging/forms/form_k1/extractor.py:504-517 | the batch output is one dictionary carrying the first metadata any page offers, or the default K-1 metadata, and the records of all pages in page order |
| Batch.SingleFormBatch | taxifyl-staging/taxifyl-staging/forms/form_8805/extractor.py:522-551 | at most one form comes out, exactly when the first page's reply is a dictionary without "error"; it is that reply with the page span as its `page_reference` |
| Batch.SingleFormIgnoresLaterPages | taxifyl-staging/taxifyl-staging/forms/form_8805/extractor.py:528-538 | replies of pages after the first are never used |
| Batch.Starts | taxifyl-staging/taxifyl-staging/forms/form_8805/extractor.py:586 | the first page of every range, in order |
| Batch.Rendered | taxifyl-staging/taxifyl-staging/forms/form_8805/extractor.py:469-503 | never more pages than asked for, and all of them when every page exists |
| Batch.ZipForms | taxifyl-staging/taxifyl-staging/forms/form_8805/extractor.py:596-601 | the loop stops at the shorter of the ranges and the images, and every form it yields is tagged with the span of its own range, in range order |
| Batch.ZipStarts | taxifyl-staging/taxifyl-staging/forms/form_8805/extractor.py:596-601 | zipped with the range starts, the loop yields one form per range with a usable reply |
| Batch.StartExpanded | taxifyl-staging/taxifyl-staging/forms/form_8805/extractor.py:586 | the first page of a range is one of the detected pages |
| Batch.ProcessDetected | taxifyl-staging/taxifyl-staging/forms/form_8805/extractor.py:553-618 | on detected ranges every range's first page is rendered, and the forms are exactly those of the range-by-range loop: none skipped or mismatched |
| Batch.ProcessRanges | taxifyl-staging/taxifyl-staging/forms/form_8805/extractor.py:553-618 | the result is an error exactly when no range was detected or no first page could be rendered; otherwise it lists at most one form per range, each tagged with its range in order |
| Batch.RangeFormsTagged | taxifyl-staging/taxifyl-staging/forms/form_8805/extractor.py:597-601 | a range whose first-page reply is usable yields a form tagged with that range |
| Extract.Numbers | taxifyl-staging/api.py:614 | the page numbers of a chunk, in order |
| Extract.PagesByTypeSpec | taxifyl-staging/api.py:580-585 | one group per detected type, types in order of first appearance, each group the pages of its type in request order, and every page in exactly one group |
| Extract.Slot | taxifyl-staging/api.py:744-752 | a form goes to a page of its chunk; the slot can be computed exactly when the form is a dictionary whose `page_number`, if present, can be tested against the page keys |
| Extract.FirstFailure | taxifyl-staging/api.py:744-752 | the distribution loop fails exactly when some form's slot cannot be computed |
| Extract.Seed | taxifyl-staging/api.py:735-741 | one empty bucket per page number of the chunk, no number twice |
| Extract.NumbersSnoc | taxifyl-staging/api.py:736 | the numbers of a chunk are those before its last page and the last page's |
| Extract.SeedStep | taxifyl-staging/api.py:736-741 | one more page adds an empty bucket unless its number already has one |
| Extract.Distribute | taxifyl-staging/api.py:744-752 | distribution fails exactly when some form's slot cannot be computed |
| Extract.SeedEmpty | taxifyl-staging/api.py:740 | every seeded bucket is empty |
| Extract.SeedItemsEmpty | taxifyl-staging/api.py:740 | buckets that are all empty hold nothing under any key |
| Extract.SeedTotal | taxifyl-staging/api.py:740 | buckets that are all empty hold no forms in total |
| Extract.DistributeSpec | taxifyl-staging/api.py:735-752 | every form lands in exactly one bucket of its chunk: one bucket per page number, each holding in reply order the forms whose target is that page (the form's own page when in the chunk, else the chunk's first page) |
| Extract.TargetOwnPage | taxifyl-staging/api.py:746-748 | a form naming a page of its chunk is filed under that page |
| Extract.TargetFallback | taxifyl-staging/api.py:746 | a form without `page_number` is filed under the chunk's first page |
| Extract.BoxesJson | taxifyl-staging/api.py:710-713 | one box dictionary per box |
| Extract.FormDicts | taxifyl-staging/api.py:705-714 | one dictionary per parsed form |
| Extract.AsWrittenHasNoPage | taxifyl-staging/api.py:516-521 | the dictionary built from a parsed form has no `page_number`, since the parsed form type has no such field |
| Extract.FormDictPage | taxifyl-staging/api.py:705-714 | with the page carried along, the dictionary names the form's page |
| Extract.AsWrittenFilesAllOnFirstPage | taxifyl-staging/api.py:705-752 | as written, every form of a parsed reply is filed under the chunk's first page, whichever page it was read from |
| Extract.FilterNone | taxifyl-staging/api.py:744-752 | no element has the key, so none is kept |
| Extract.AsWrittenMisfiles | taxifyl-staging/api.py:705-752 | a chunk of pages 1 and 2 whose one form came from page 2: as written page 2 gets nothing; with the page carried along the form is filed under page 2 |
| Extract.FormsFiledOnOwnPage | taxifyl-staging/api.py:705-752 | with the page carried along, every parsed form read from a page of the chunk is filed under that page |
| Extract.FilterKeeps | taxifyl-staging/api.py:744-752 | an element is kept under its own key |
| Extract.BucketResults | taxifyl-staging/api.py:754 | the page results of a chunk list all its distributed forms |
| Extract.Unsupported | taxifyl-staging/api.py:595-604 | a type without a prompt configuration gives one error result per page and no forms |
| Extract.ExtractChunks | taxifyl-staging/api.py:612-754 | one model request per chunk, and the forms counted are the forms listed |
| Extract.ExtractGroups | taxifyl-staging/api.py:590-754 | one model request per chunk of every supported type, and the forms counted are the forms listed |
| Extract.ExtractedFormsAppend | taxifyl-staging/api.py:766-769 | the forms listed of two result runs are those of the first, then the second |
| Extract.ApiCallsUndercount | taxifyl-staging/api.py:787 | a W-2 page and a 1099-INT page: the loop sends two requests, while `api_calls_made` as written reports one |
| Extract.ChunkForms | taxifyl-staging/api.py:703-727 | one dictionary per form of the reply: one per structured form, or one per element of the `extracted_forms` list of the fallback JSON |
| Extract.ChunkStep | taxifyl-staging/api.py:612-754 | a chunk adds exactly one model request, and if the forms counted so far were the forms listed so far, they still are after the chunk's page results are added |
| Extract.ExtractBatch | taxifyl-staging/api.py:551-789 | the endpoint as written: a completed request made exactly one model request per ten-page chunk of each supported type, and the form count of the success message is the number of forms listed in the page results |
| Extract.ExtractBatchCorrected | taxifyl-staging/api.py:705-752 | with each structured form's page carried along, the endpoint still makes one request per chunk of each supported type and still counts exactly the forms it lists |
| Extract.ApiCallsMadeAsWritten | taxifyl-staging/api.py:787 | `api_calls_made` as written is the fewest ten-page chunks that hold all pages taken together: that many chunks hold every page and one fewer would not |
| Extract.ApiCallsMade | taxifyl-staging/api.py:590-614 | the requests the loop actually sends never outnumber the pages |
| Extract.RequestsAtMost | taxifyl-staging/api.py:611-613 | a type's ten-page chunks never outnumber its pages |
| Extract.RequestsCover | taxifyl-staging/api.py:611-613 | when every type has a prompt configuration, the chunks sent hold every page |
| Extract.AsWrittenNeverOvercounts | taxifyl-staging/api.py:787 | when every type has a prompt configuration, `api_calls_made` as written is never more than the requests sent, so it can only undercount |
| Extract.ParsedChunkAsWritten | taxifyl-staging/api.py:705-752 | as written, a chunk answered with structured forms leaves every page other than its first with a result holding no form, wherever the forms were read |
| Extract.ParsedChunkCorrected | taxifyl-staging/api.py:705-752 | with the page carried along, every structured form read from a page of the chunk is listed in that page's result |
| Grouping.KeysOf | taxifyl-staging/api.py:580-585 | the keys of the grouping, one per bucket and in bucket order |
| Grouping.AddTo | taxifyl-staging/api.py:583-585 | adding to a key that has a bucket keeps the key order, and a new key opens a bucket at the end |
| Grouping.AddToItems | taxifyl-staging/api.py:583-585 | the addressed bucket gains the value at its end and every other bucket is unchanged |
| Grouping.AddToTotal | taxifyl-staging/api.py:583-585 | each addition grows the number of grouped items by one |
| Grouping.AddToKeys | taxifyl-staging/api.py:583-585 | with distinct keys before, the keys stay distinct, none is lost, and exactly the added key can be new |
| Grouping.Filter | taxifyl-staging/api.py:580-585 | the elements with a given key are a selection no longer than the input |
| Grouping.PlaceItems | taxifyl-staging/api.py:580-585 | after the loop, each bucket holds what it held before followed by exactly the elements with its key, in input order |
| Grouping.PlaceTotal | taxifyl-staging/api.py:580-585 | every element lands in exactly one bucket: the item count grows by the number of elements |
| Grouping.PlaceKeys | taxifyl-staging/api.py:580-585 | the keys stay distinct, none is lost, and a key is present afterwards exactly when it was before or some element carries it |
| Grouping.OccursLast | taxifyl-staging/api.py:581-582 | a key occurs in a list exactly when it occurs in its front part or is the last element's key |
| Grouping.PlaceKnownKeys | taxifyl-staging/api.py:583-585 | when every element's key already has a bucket, the loop opens no bucket |
| Grouping.FirstAt | taxifyl-staging/api.py:580-585 | the position of the first element with the key, no earlier element having it, or the length when none does |
| Grouping.FirstAtPrefix | taxifyl-staging/api.py:580-585 | a key first found inside a prefix is first found at the same place in the whole list |
| Grouping.GroupByOrder | taxifyl-staging/api.py:580-590 | the groups are visited in order of first appearance: every group's key occurs in the input, and an earlier group's key first occurs before a later group's |
| Grouping.Chunks | taxifyl-staging/api.py:571 | the pages of one type are cut into ceil(n/10) chunks, each holding between 1 and 10 pages |
| Grouping.ChunksCover | taxifyl-staging/api.py:612-613 | the chunks put back together are the pages in order, and every chunk but the last holds exactly 10 |
| Grouping.GroupBy | taxifyl-staging/api.py:580-585 | `pages_by_type` has distinct keys, exactly the keys that occur, each bucket the elements with its key in input order, and every element in exactly one bucket |
| Grouping.ItemsOfDistinct | taxifyl-staging/api.py:580-585 | when bucket keys are distinct, looking up a bucket's key gives that bucket's items |
| W2Checks.NewReport | taxifyl-staging/tests/test_w2_prompt_validation.py:80-89 | a fresh report for a PDF passes and holds no bugs and no warnings |
| W2Checks.AddBug | taxifyl-staging/tests/test_w2_prompt_validation.py:91-99 | recording a bug fails the PDF and appends exactly one bug, with its type and form id, after the earlier ones; warnings and the PDF name are unchanged |
| W2Checks.AddWarning | taxifyl-staging/tests/test_w2_prompt_validation.py:101-102 | a warning is appended to the warnings while the verdict and the bugs stay as they were |
| W2Checks.VerdictFollowsBugs | taxifyl-staging/tests/test_w2_prompt_validation.py:91-102 | from a report whose verdict matches its bugs, a bug always fails the PDF, a warning never changes the verdict, and the verdict keeps matching the bugs |
| W2Checks.Counts | taxifyl-staging/tests/test_w2_prompt_validation.py:107-113 | one `(type, count)` pair per bucket of the grouping, in bucket order |
| W2Checks.SumCountsTotal | taxifyl-staging/tests/test_w2_prompt_validation.py:107-113 | the counts of a grouping add up to the number of grouped items |
| W2Checks.SummaryKinds | taxifyl-staging/tests/test_w2_prompt_validation.py:107-113 | the types listed by a summary, one per entry and in entry order |
| W2Checks.BugSummaryKinds | taxifyl-staging/tests/test_w2_prompt_validation.py:107-113 | the bug summary lists each bug type that occurs, and only those, each exactly once |
| W2Checks.BugSummaryCounts | taxifyl-staging/tests/test_w2_prompt_validation.py:107-113 | each listed type's count is the number of bugs of that type, and the counts add up to the number of bugs |
| W2Checks.AnyPattern | taxifyl-staging/tests/test_w2_prompt_validation.py:210-223 | true exactly when some pattern, upper-cased, occurs in the upper-cased copy type |
| W2Checks.IsCopy | taxifyl-staging/tests/test_w2_prompt_validation.py:210-223 | a falsy copy type is not a copy of either kind; the check fails exactly when the copy type is truthy but not a string, where `.upper()` would raise |
| W2Checks.UpperOfLower | taxifyl-staging/tests/test_w2_prompt_validation.py:213-215 | upper-casing a lower-cased string gives the same as upper-casing it directly |
| W2Checks.CopyIgnoresCase | taxifyl-staging/tests/test_w2_prompt_validation.py:210-223 | a non-empty copy type is classified by whether some pattern occurs in it ignoring case, so writing it in lower case changes nothing |
| W2Checks.CopyFindsPattern | taxifyl-staging/tests/test_w2_prompt_validation.py:63-64 | a copy type containing one of the patterns, in any case, is classified as that kind of copy |
| W2Checks.EmployeeStateCopyIsBoth | taxifyl-staging/tests/test_w2_prompt_validation.py:63-64 | the two classes overlap: "Employee State" is both a federal and a state copy |
| W2Checks.FirstKeyword | taxifyl-staging/tests/test_w2_prompt_validation.py:249-251 | the index of the first Box 14 keyword occurring in the text, with no earlier keyword occurring, or the keyword count when none occurs |
| W2Checks.LeadingCode | taxifyl-staging/tests/test_w2_prompt_validation.py:254-256 | the code is a prefix of the text of at most two capital letters, and it stops only at two letters, at the end, or before a non-capital |
| W2Checks.Box12Valid | taxifyl-staging/tests/test_w2_prompt_validation.py:237-260 | a blank entry (None, "" or "null") is valid, and an entry is valid exactly when it draws no complaint |
| W2Checks.JudgeBox12 | taxifyl-staging/tests/test_w2_prompt_validation.py:246-260 | on the cleaned text, the verdict is valid exactly when there is no complaint |
| W2Checks.Box12ValidSpec | taxifyl-staging/tests/test_w2_prompt_validation.py:237-260 | an entry is valid exactly when it is blank, or when its stripped upper-case text holds no Box 14 keyword and either starts with no capital letter or starts with a listed IRS code |
| W2Checks.AbsentLead | taxifyl-staging/tests/test_w2_prompt_validation.py:249-251 | a keyword whose first letter does not occur in the text is not in the text |
| W2Checks.KeywordsLead | taxifyl-staging/tests/test_w2_prompt_validation.py:45-49 | every Box 14 keyword is non-empty and starts with one of a fixed set of lead letters |
| W2Checks.TwoLetterCodesDouble | taxifyl-staging/tests/test_w2_prompt_validation.py:39-42 | every two-letter IRS code in the list repeats one letter |
| W2Checks.MixedPairNotIn | taxifyl-staging/tests/test_w2_prompt_validation.py:39-42 | two different letters never form a listed two-letter code |
| W2Checks.NoLeadNoKeyword | taxifyl-staging/tests/test_w2_prompt_validation.py:249-251 | text holding none of the keywords' first letters contains no keyword |
| W2Checks.Box12MixedPairRejected | taxifyl-staging/tests/test_w2_prompt_validation.py:254-258 | text starting with two different capitals is always rejected, and without a keyword the complaint names that two-letter code |
| W2Checks.TextOfTrimmed | taxifyl-staging/tests/test_w2_prompt_validation.py:246 | for a string without leading or trailing whitespace, the cleaned text is its upper-case form |
| W2Checks.Box12OfTrimmed | taxifyl-staging/tests/test_w2_prompt_validation.py:237-260 | a trimmed, non-blank entry is judged on its upper-case text |
| W2Checks.JudgeValidCode | taxifyl-staging/tests/test_w2_prompt_validation.py:249-260 | text with no keyword lead letter whose leading code is listed is accepted |
| W2Checks.JudgeMixedPair | taxifyl-staging/tests/test_w2_prompt_validation.py:249-258 | text with no keyword lead letter starting with two different capitals is rejected as an invalid code |
| W2Checks.Box12LowerCaseCode | taxifyl-staging/tests/test_w2_prompt_validation.py:246-260 | the entry "b 1500.00" is accepted as code B |
| W2Checks.Box12TwoLetterCode | taxifyl-staging/tests/test_w2_prompt_validation.py:254-258 | "ab 20" is rejected as the invalid code AB, although A alone is a valid code |
| W2Checks.Box12RejectsKeyword | taxifyl-staging/tests/test_w2_prompt_validation.py:249-251 | a non-blank entry whose cleaned text contains a Box 14 keyword is rejected |
| W2Checks.Box12NullSpelling | taxifyl-staging/tests/test_w2_prompt_validation.py:243-258 | only the exact text "null" counts as blank; "NULL" is read as the unknown code NU and rejected |
| W2Checks.ToFloat | taxifyl-staging/tests/test_w2_prompt_validation.py:317 | `float` of a number is that number, and of None, a list or an object it fails |
| W2Checks.FloatOrZero | taxifyl-staging/tests/test_w2_prompt_validation.py:282-284 | a falsy value reads as 0 and any other value as its `float` |
| W2Checks.PositiveIsParsed | taxifyl-staging/tests/test_w2_prompt_validation.py:299-300 | a positive amount read with the falsy-is-zero rule came from `float` of the value |
| W2Checks.CopyBugs | taxifyl-staging/tests/test_w2_prompt_validation.py:295-325 | one bug per firing test: a value-copying bug exactly when Box 4 equals a non-zero Box 2, a null-field bug exactly when Box 5 is missing and Box 3 equals a non-zero Box 1, all for the form's id |
| W2Checks.BugPair | taxifyl-staging/tests/test_w2_prompt_validation.py:295-325 | the first bug when the first test fires and the second when the second does, nothing else |
| W2Checks.CopiedBug | taxifyl-staging/tests/test_w2_prompt_validation.py:303-308 | the Box 4 bug has the value-copying type and the form's id |
| W2Checks.NulledBug | taxifyl-staging/tests/test_w2_prompt_validation.py:318-323 | the Box 3 bug has the null-field-copied type and the form's id |
| W2Checks.CopyWarnings | taxifyl-staging/tests/test_w2_prompt_validation.py:280-293 | at most one warning, given exactly when Box 3 equals a non-zero Box 1 but differs from a non-zero Box 5 |
| W2Checks.Record | taxifyl-staging/tests/test_w2_prompt_validation.py:91-102 | bugs and warnings are appended in order; the PDF fails when any bug is added and its verdict is untouched otherwise |
| W2Checks.EqualTaxesFlagged | taxifyl-staging/tests/test_w2_prompt_validation.py:297-311 | Box 4 holding the same positive amount as Box 2 is recorded as value copying and fails the PDF |
| W2Checks.ValueCopyingOnlyOnEqualTaxes | taxifyl-staging/tests/test_w2_prompt_validation.py:297-311 | a value-copying bug means Boxes 2 and 4 are both present and parse to the same positive amount |
| W2Checks.MissingBox5Flagged | taxifyl-staging/tests/test_w2_prompt_validation.py:315-325 | with Box 5 missing, Box 3 holding the same positive amount as Box 1 is recorded as a copied null field |
| W2Checks.NullCopyOnlyWithoutBox5 | taxifyl-staging/tests/test_w2_prompt_validation.py:315-325 | a copied-null-field bug means Box 5 is missing and Boxes 1 and 3 parse to the same positive amount |
| W2Checks.CheckSlot | taxifyl-staging/tests/test_w2_prompt_validation.py:338-340 | the slot is judged on its own value; it is valid exactly when there is no complaint, and a blank value is valid |
| W2Checks.Box12Bugs | taxifyl-staging/tests/test_w2_prompt_validation.py:338-346 | the invalid-code bugs are exactly those of the rejected slots, each with the form's id |
| W2Checks.SlotChecks | taxifyl-staging/tests/test_w2_prompt_validation.py:334-339 | every slot of the list is judged, in order |
| W2Checks.FirstFilled | taxifyl-staging/tests/test_w2_prompt_validation.py:349-353 | the index of the first slot holding a truthy value, every earlier slot being falsy, or the slot count when none is |
| W2Checks.ShiftWarnings | taxifyl-staging/tests/test_w2_prompt_validation.py:348-358 | at most one shifting warning |
| W2Checks.ShiftWarningIff | taxifyl-staging/tests/test_w2_prompt_validation.py:348-358 | the shifting warning is given exactly when 12a is falsy and one of 12b to 12d is truthy |
| W2Checks.InvalidSlotsReported | taxifyl-staging/tests/test_w2_prompt_validation.py:328-346 | the Box 12 bugs recorded are exactly the bugs of the rejected slots among 12a to 12d |
| W2Checks.CheckboxBugs | taxifyl-staging/tests/test_w2_prompt_validation.py:457-468 | the type bugs are exactly those of the named checkboxes holding a value that is neither None nor a boolean, each with the form's id |
| W2Checks.CheckboxBugsExact | taxifyl-staging/tests/test_w2_prompt_validation.py:452-468 | over the three Box 13 checkboxes, the recorded bugs are exactly those of checkboxes holding something other than a boolean or None, and no warning is added |
| W2Checks.CheckboxStringFlagged | taxifyl-staging/tests/test_w2_prompt_validation.py:459-468 | a retirement checkbox holding the string "true" adds one bug and fails the PDF, while a boolean or missing checkbox adds none |
| W2Checks.JudgeBox12Spec | taxifyl-staging/tests/test_w2_prompt_validation.py:246-260 | the verdict on a cleaned text is acceptance exactly when it contains no Box 14 keyword and its leading code is empty or listed |
| W2Checks.CheckValueCopying | taxifyl-staging/tests/test_w2_prompt_validation.py:263-325 | `check_value_copying` only appends, at most two bugs and one warning, all for this form; it adds a value-copying bug exactly when Box 4 copies Box 2, a copied-null-field bug exactly when Box 3 copies Box 1 without Box 5, and keeps the verdict matching the bugs |
| W2Checks.CheckBox12Shifting | taxifyl-staging/tests/test_w2_prompt_validation.py:328-358 | `check_box12_shifting` only appends, at most four bugs and one warning, every bug an invalid Box 12 code of this form, and keeps the verdict matching the bugs |
| W2Checks.TypeName | taxifyl-staging/tests/test_w2_prompt_validation.py:465-467 | `type(value).__name__` is "bool" exactly for booleans, "NoneType" exactly for null, "str" exactly for strings, and "int" or "float" exactly for numbers |
| W2Checks.CheckCheckboxTypes | taxifyl-staging/tests/test_w2_prompt_validation.py:452-468 | `check_checkbox_types` only appends, at most three bugs and no warning, every bug a checkbox type error of this form, and keeps the verdict matching the bugs |
| BugHistory.Prefix | taxifyl-staging/tests/test_w2_prompt_validation.py:624 | the first `n` characters of the message, or all of it when shorter |
| BugHistory.BugIdIgnoresTail | taxifyl-staging/tests/test_w2_prompt_validation.py:621-625 | two bugs of the same type on the same form whose messages agree in their first 50 characters get the same id |
| BugHistory.BugIdSeparatesPdfs | taxifyl-staging/tests/test_w2_prompt_validation.py:621-625 | bugs of two different PDFs whose names hold no bar character never share an id |
| BugHistory.Ids | taxifyl-staging/tests/test_w2_prompt_validation.py:657-658 | the ids of a list of bug records, one per record and in order |
| BugHistory.Find | taxifyl-staging/tests/test_w2_prompt_validation.py:657-658 | a lookup by id finds a record of the list with that id, and finds nothing exactly when no record has it |
| BugHistory.Store | taxifyl-staging/tests/test_w2_prompt_validation.py:688-692 | storing under a known id keeps the ids as they were, a new id is added at the end, and no record other than the stored one appears |
| BugHistory.StoreUnique | taxifyl-staging/tests/test_w2_prompt_validation.py:688-692 | storing keeps the ids distinct |
| BugHistory.StoreFind | taxifyl-staging/tests/test_w2_prompt_validation.py:688-692 | after storing, the stored id finds the stored record and every other id finds what it found before |
| BugHistory.LastWith | taxifyl-staging/tests/test_w2_prompt_validation.py:657-658 | the last record of a list with the given id, which exists exactly when some record has that id |
| BugHistory.Index | taxifyl-staging/tests/test_w2_prompt_validation.py:657-658 | building a dictionary from a list keeps each id once, drops no id, and invents no record |
| BugHistory.IndexFind | taxifyl-staging/tests/test_w2_prompt_validation.py:657-658 | in the dictionary built from a list, an id finds the last record of the list with that id |
| BugHistory.StoreNew | taxifyl-staging/tests/test_w2_prompt_validation.py:692 | storing under a new id appends the record |
| BugHistory.IndexOfUnique | taxifyl-staging/tests/test_w2_prompt_validation.py:657-658 | a list whose ids are distinct becomes the same list as a dictionary |
| BugHistory.FindUnique | taxifyl-staging/tests/test_w2_prompt_validation.py:657-658 | in a list with distinct ids, each record is found by its own id |
| BugHistory.IndexIds | taxifyl-staging/tests/test_w2_prompt_validation.py:657-658 | lists with the same ids give dictionaries with the same ids |
| BugHistory.ReportEntries | taxifyl-staging/tests/test_w2_prompt_validation.py:642-654 | one record per bug of a PDF, in bug order, each built from that bug and the PDF name |
| BugHistory.Entries | taxifyl-staging/tests/test_w2_prompt_validation.py:641-654 | every collected record is active, first and last seen now, and not solved |
| BugHistory.EntriesIds | taxifyl-staging/tests/test_w2_prompt_validation.py:641-654 | an id is collected exactly when some PDF of the run reported a bug with that id |
| BugHistory.CurrentBugs | taxifyl-staging/tests/test_w2_prompt_validation.py:640-654 | `current_bugs` holds each reported id once, exactly the ids this run reported, each as an active record seen now |
| BugHistory.NewlySolved | taxifyl-staging/tests/test_w2_prompt_validation.py:666-671 | the newly solved bugs are exactly those previously active and not reported now, each a previous record marked solved at `now` |
| BugHistory.CloseAll | taxifyl-staging/tests/test_w2_prompt_validation.py:666-674 | the first loop keeps the ids of `all_bugs` as they were |
| BugHistory.CloseAllFind | taxifyl-staging/tests/test_w2_prompt_validation.py:666-674 | after the first loop, a record is closed at `now` exactly when its bug was active before and is not reported now; every other record is as it was |
| BugHistory.Carry | taxifyl-staging/tests/test_w2_prompt_validation.py:678-681 | a continuing bug's record differs from its current record at most in `first_seen` |
| BugHistory.StillActive | taxifyl-staging/tests/test_w2_prompt_validation.py:677-685 | one active record per current bug, in the same order and with the same ids |
| BugHistory.CarryAll | taxifyl-staging/tests/test_w2_prompt_validation.py:680 | when the run reports exactly the previously active ids, every bug keeps its previous `first_seen` |
| BugHistory.NewBugs | taxifyl-staging/tests/test_w2_prompt_validation.py:682-685 | the new bugs are exactly the current bugs whose ids were not active before |
| BugHistory.NewBugsNone | taxifyl-staging/tests/test_w2_prompt_validation.py:682-685 | when every current id was active before, no bug is new |
| BugHistory.NewlySolvedNone | taxifyl-staging/tests/test_w2_prompt_validation.py:666-671 | when every previously active id is reported again, nothing is solved |
| BugHistory.SeeAll | taxifyl-staging/tests/test_w2_prompt_validation.py:687-692 | the second loop keeps the known ids in their places, and afterwards an id is known exactly when it was before or this run reported it |
| BugHistory.SeeAllUnique | taxifyl-staging/tests/test_w2_prompt_validation.py:687-692 | the second loop keeps the ids of `all_bugs` distinct |
| BugHistory.SeeAllFind | taxifyl-staging/tests/test_w2_prompt_validation.py:687-692 | after the second loop, a reported id with a record has it refreshed, a reported id without one gets a copy of its active record, and any other record is unchanged |
| BugHistory.Latest | taxifyl-staging/tests/test_w2_prompt_validation.py:713 | the last `n` runs, or all of them when there are fewer, as a suffix of the list |
| BugHistory.SolvedExactly | taxifyl-staging/tests/test_w2_prompt_validation.py:661-716 | a bug is newly solved exactly when it was active before and is not reported now; it is marked solved at `now`, and the solved list grows by exactly these bugs |
| BugHistory.ActiveExactly | taxifyl-staging/tests/test_w2_prompt_validation.py:677-715 | the active bugs afterwards are exactly this run's ids, each once, all active and last seen now |
| BugHistory.FirstSeenCarried | taxifyl-staging/tests/test_w2_prompt_validation.py:678-685 | a bug that was active before keeps its earlier `first_seen`, and every other current bug was first seen now |
| BugHistory.NewExactly | taxifyl-staging/tests/test_w2_prompt_validation.py:682-685 | a bug is new exactly when this run reported it and it was not active before; each new bug is also active and first seen now |
| BugHistory.AllBugsFind | taxifyl-staging/tests/test_w2_prompt_validation.py:657-692 | each id's record in `all_bugs` afterwards: refreshed when reported and known, copied from the active record when reported and unknown, closed when active before but not reported now, else unchanged |
| BugHistory.AllBugsUpdated | taxifyl-staging/tests/test_w2_prompt_validation.py:657-714 | `all_bugs` afterwards holds each id once, exactly the ids it held and the reported ones; reported bugs are active and seen now, and bugs solved now are closed at `now` |
| BugHistory.ReturningBugKeepsSolvedDate | taxifyl-staging/tests/test_w2_prompt_validation.py:677-692 | a solved bug that is reported again is new again with a fresh `first_seen`, while its `all_bugs` record turns active but keeps its old `first_seen` and its `solved_date` |
| BugHistory.UpdateHistory | taxifyl-staging/tests/test_w2_prompt_validation.py:628-734 | `update_bug_history` grows the solved list by exactly the newly solved bugs, replaces the active list by this run's and stamps the history; the run record counts the PDFs (passed plus failed), the distinct bugs, the new and the solved ones, its per-type counts add up to the bug count, and only the latest 50 runs are kept, this one last after the earlier ones in order |
| BugHistory.RerunSetting | taxifyl-staging/tests/test_w2_prompt_validation.py:628-734 | after a run, the active list read back as a dictionary is the run's active bugs, with the ids a second run on the same results collects |
| BugHistory.RerunIsQuiet | taxifyl-staging/tests/test_w2_prompt_validation.py:628-734 | a second run on the same results finds no new bug and no solved bug, and the same active ids |
| BugHistory.RerunKeepsFirstSeen | taxifyl-staging/tests/test_w2_prompt_validation.py:678-681 | a second run on the same results keeps every active bug's `first_seen` |


## Left out

- The Streamlit interface: the `render_*` functions, `main` in `app.py` and all of `ui.py`. They are presentation and session state.
- The vision SDK calls (Gemini, Groq, OpenAI) and pytesseract. They are foreign calls; their replies and OCR texts are inputs.
- PyMuPDF: page text, rendering to images, `is_digital_pdf`. These are I/O; page texts and image sizes are inputs.
- Uploads, public URLs, Supabase storage and `services/history_manager.py`. They are persistence.
- The JSON file I/O of the validation script (`load_bug_history`, `save_bug_history`, the reports). The history is an input and an output of `BugHistory.UpdateHistory`.
- `time.sleep` and wall-clock timing. `Retry` returns the list of delays it would sleep; timestamps are a parameter.
- Floating-point precision and formatting. Amounts are exact `real`s. Parsing and `str()` of non-strings go through the `Host` parameter. The OCR amount patterns are the exception: their cleaned ASCII digits are read as exact decimals, not rounded to the nearest binary float.
- Text.UpperChar: maps only a-z to A-Z; Python's `str.upper()` uses the full Unicode case table, so "ſ" becomes "S" there and stays "ſ" here.
- Text.LowerChar: maps only A-Z to a-z; Python lowers the Kelvin sign U+212A to "k", this keeps it.
- Text.Upper: upper-cases ASCII letters only (see Text.UpperChar), and one character always maps to one, where Python upper-cases "ß" to "SS".
- Text.Lower: lower-cases ASCII letters only (see Text.LowerChar).
- Text.IsCased: only A-Z and a-z are cased letters; Python's `str.title()` counts every Unicode cased letter.
- Text.Title: follows Text.IsCased, so in "éa" the "a" is raised here and lowered in Python.
- Text.ContainsLower: holds for ASCII lowering only; Python lowers a final capital sigma to "ς" and any other to "σ", so "Σ" occurs in "ΑΣ" but "σ" does not occur in "ας".
- Text.IsDigit: only 0-9 are digits; Python's `\d` and `float()` also accept other Unicode decimal digits such as full-width "１".
- W2Transform.Checked: compares the ASCII-lowered string with the true words; Python lowers "CHEC\u212AED" (with the Kelvin sign) to "checked" and returns True, the model returns False.
- K1Transform.CleanBool: the same ASCII-only lowering as W2Transform.Checked, so "CHEC\u212AED" is True in Python and False here.
- OcrFallback.ParseUnsigned: reads ASCII digits only; `float("１２")` is 12.0 in Python, ParseUnsigned gives None.
- OcrFallback.ParseDecimal: reads ASCII digits only, so `float("１２")` is 12.0 in Python and None here.
- W2Checks.AnyPattern: upper-cases ASCII only; Python upper-cases "ſtate copy" to "STATE COPY" and finds the pattern, the model does not.
- W2Checks.UpperOfLower: `upper(lower(s)) == upper(s)` holds for ASCII case mapping; in Python "ẞ".lower().upper() is "SS", not "ẞ".
- W2Checks.CopyIgnoresCase: classifies with ASCII case mapping (see W2Checks.AnyPattern), so "ſtate copy" is a state copy in Python and not here.
- W2Checks.Box12ValidSpec: judges the ASCII-upper-cased text; Python upper-cases "ß 10" to "SS 10" and rejects it as code SS, the model keeps "ß 10", finds no leading code and accepts it.
- W2Checks.TypeName: a JSON number is named "int" when it is integral and "float" otherwise, because `Json` keeps one number kind; `json.loads` types "1.0" as float, so a checkbox holding 1.0 is reported as int where Python says float. Both flag such a checkbox as a type error; only the type named in the bug differs.
- Regular-expression semantics other than the tax-year search. Each other search is an input giving the first match of its pattern.
- The token counts, timings and log lines of the extract endpoint's summary, apart from `api_calls_made` and the form count.
- `_debug_raw_results` in the K-3 processor (`K3Batch.K3BatchExtract`) and in the K-1 processor (`Batch.K1BatchExtract`, form_k1/extractor.py:516). It is a diagnostic copy of the raw replies, and neither batch output models it.
- K3Batch.BatchKeepsFirstFilled: it states the first-non-empty merge for well-formed payloads only, and so do the `K3Merge` and `K3Batch` lemmas whose names end in `OfEntries`. Malformed payloads are modelled: `K3Batch.K3Step`, `K3Batch.MergeParts`, `K3Merge.MergePart` and `K3Merge.FillCellsRaises` say when a malformed part (for example one that is not a list) raises partway through the merge and what the earlier parts keep.
- The validation script's `check_footer_hallucination`, `check_box14_prefix` and `check_field_merging`, and its PDF-running and reporting code. They are regex scans of free text and driver code outside the checks modelled here.
- `scripts/` (drawing inspection, bounding-box visualisation). This is float geometry and a file picker.

## Findings

| source | as written | input that shows it | evidently intended | confidence | as-written member | corrected member |
|---|---|---|---|---|---|---|
| taxifyl-staging/taxifyl-staging/forms/form_8804/extractor.py:372 | the Part I test looks for "Name of partnership" in `text.lower()`, which can never contain a capital N, so only "Partnership" counts | a main Form 8804 page with "Form 8804", "Part I", "Name of partnership", "Part II" and "Withholding Agent" but no title and no capitalised "Partnership" is rejected | the caption is matched case-blind, so that page is a main 8804 page | not executed | PageDetect.Detect8804PageRanges (PageDetect.Is8804PageAsWritten, PageDetect.PartIAlternativeIsDead, PageDetect.MainFormMissedAsWritten) | PageDetect.Detect8804PageRangesCorrected (PageDetect.Is8804Page, PageDetect.CorrectionOnlyAdds) |
| taxifyl-staging/taxifyl-staging/forms/form_k1/extractor.py:285-289 | the pattern's parentheses sit outside the capture group, so `.replace('(', '-')` never sees one and `(1500)` reads as 1500 | a K-1 amount printed as `(1500)` | a parenthesised amount is a loss, read as -1500 | not executed | OcrFallback.K1Fallback (OcrFallback.K1BoxValueAsWritten, OcrFallback.K1ReadingAsWritten, OcrFallback.K1ParenthesisedLoss) | OcrFallback.K1FallbackCorrected (OcrFallback.K1BoxValue, OcrFallback.K1Reading) |
| taxifyl-staging/api.py:787 | `api_calls_made` is the number of ten-page chunks of all pages together, but one request is sent per chunk per form type | one W-2 page and one 1099-INT page: two requests, reported as one | the number of requests actually sent | not executed | Extract.ApiCallsMadeAsWritten (Extract.ApiCallsUndercount) | Extract.ApiCallsMade (Extract.ExtractBatch, Extract.ExtractBatchCorrected, Extract.AsWrittenNeverOvercounts) |
| taxifyl-staging/api.py:705-752 | the structured-reply dictionaries carry no `page_number` (`FormInstance` has none), so every form falls back to the chunk's first page | a chunk of pages 1 and 2 whose only form was read from page 2: it is filed under page 1 and page 2 gets nothing | each form is filed under the page it came from | not executed | Extract.ExtractBatch (Extract.FormDictAsWritten, Extract.ParsedChunkAsWritten, Extract.AsWrittenFilesAllOnFirstPage, Extract.AsWrittenMisfiles) | Extract.ExtractBatchCorrected (Extract.FormDict, Extract.ParsedChunkCorrected, Extract.FormsFiledOnOwnPage) |
